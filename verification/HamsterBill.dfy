/** What hmstr_collect's reply means: the books that a run of the database keeps, the prices they lead
    to, and when a bill can be told from an error. */
module HamsterBill {
  import opened Bytes
  import opened HamsterStore
  import opened HamsterLaws

  // ----- the books -----

  /** A stay: what the hamster came with and when, what it was fed and how often it was asked about. */
  datatype Account = Account(treats: uint16, admission: nat, fed: nat, asked: nat)

  /** What a stay costs by the price list, in unbounded arithmetic. */
  function Charge(a: Account): nat {
    HMSTR_BASE_PRICE + a.asked * HMSTR_CARE_PRICE + Positive(a.fed - a.treats) * HMSTR_FEED_PRICE
  }

  /** The account of the hamster with these names after a run from the empty database; none while it is
      not there. */
  function Book(ops: seq<Op>, owner: CString, name: CString): Option<Account> {
    if ops == [] then None
    else
      var front, op := ops[..|ops| - 1], ops[|ops| - 1];
      Entry(Run(None, front), Book(front, owner, name), op, owner, name)
  }

  /** One operation on the database `f` entered in the books. */
  function Entry(f: File, book: Option<Account>, op: Op, owner: CString, name: CString): Option<Account> {
    match op
    case OpNew(o, n, treats, now) =>
      if o == owner && n == name && IsAccepted(f, op) then Some(Account(treats, now, 0, 0)) else book
    case OpFeed(uid, treats) =>
      if book.Some? && Reaches(f, uid, owner, name) then Some(book.value.(fed := book.value.fed + treats)) else book
    case OpAsk(uid) =>
      if book.Some? && Reaches(f, uid, owner, name) then Some(book.value.(asked := book.value.asked + 1)) else book
    case OpCollect(o) => if o == owner then None else book
  }

  ghost predicate IsThere(f: File, owner: CString, name: CString) {
    exists r :: r in Records(f) && IsFor(r, owner, name)
  }

  ghost predicate HasAccount(f: File, owner: CString, name: CString, a: Account) {
    HasLedger(f, owner, name, a.treats, a.admission, a.fed, a.asked)
  }

  /** In every run, feedings, inquiries, admissions and collections in any order: the database holds a
      hamster exactly when the books do, and its record says what the books say. */
  lemma {:induction false} BooksAgree(ops: seq<Op>, owner: CString, name: CString)
    requires |owner| <= HMSTR_MAX_NAME && |name| <= HMSTR_MAX_NAME
    ensures IsThere(Run(None, ops), owner, name) <==> Book(ops, owner, name).Some?
    ensures Book(ops, owner, name).Some? ==> HasAccount(Run(None, ops), owner, name, Book(ops, owner, name).value)
  {
    hide HasAccount, Entry, After, IsThere;
    if ops == [] {
      NobodyThere(owner, name);
    } else {
      var front, op := ops[..|ops| - 1], ops[|ops| - 1];
      BooksAgree(front, owner, name);
      RunKeepsSound(None, front);
      EntryAgrees(Run(None, front), Book(front, owner, name), op, owner, name);
    }
  }

  lemma NobodyThere(owner: CString, name: CString)
    ensures !IsThere(None, owner, name)
  {
  }

  lemma EntryAgrees(f: File, book: Option<Account>, op: Op, owner: CString, name: CString)
    requires |owner| <= HMSTR_MAX_NAME && |name| <= HMSTR_MAX_NAME && Sound(f)
    requires IsThere(f, owner, name) <==> book.Some?
    requires book.Some? ==> HasAccount(f, owner, name, book.value)
    ensures IsThere(After(f, op), owner, name) <==> Entry(f, book, op, owner, name).Some?
    ensures Entry(f, book, op, owner, name).Some? ==>
              HasAccount(After(f, op), owner, name, Entry(f, book, op, owner, name).value)
  {
    hide Hash, Sound, Ledger;
    if op.OpCollect? && op.owner == owner {
      hide HasLedger;
      assert forall r :: r in Records(After(f, op)) ==> r.owner != owner;
    } else if book.Some? {
      hide HasLedger, After, Fed, Asked;
      var a := book.value;
      OpKeepsLedger(f, op, owner, name, a.treats, a.admission, a.fed, a.asked);
      var a' := a.(fed := a.fed + (if op.OpFeed? && Reaches(f, op.uid, owner, name) then op.treats else 0),
                   asked := a.asked + (if op.OpAsk? && Reaches(f, op.uid, owner, name) then 1 else 0));
      LedgerIsThere(After(f, op), owner, name, a'.treats, a'.admission, a'.fed, a'.asked);
      NotAcceptedTwice(f, op, owner, name);
    } else {
      NewcomerAgrees(f, op, owner, name);
    }
  }

  lemma NotAcceptedTwice(f: File, op: Op, owner: CString, name: CString)
    requires IsThere(f, owner, name)
    ensures op.OpNew? && op.owner == owner && op.name == name ==> !IsAccepted(f, op)
  {
    hide Hash;
    var r :| r in Records(f) && IsFor(r, owner, name);
  }

  lemma NewcomerAgrees(f: File, op: Op, owner: CString, name: CString)
    requires !IsThere(f, owner, name) && !(op.OpCollect? && op.owner == owner)
    ensures
      var book := Entry(f, None, op, owner, name);
      && (IsThere(After(f, op), owner, name) <==> book.Some?)
      && (book.Some? ==> HasAccount(After(f, op), owner, name, book.value))
  {
    hide Hash;
    if op.OpNew? && IsAccepted(f, op) {
      hide HasLedger;
      Accepted(f, op.owner, op.name, op.treats, op.now);
      var r := Admitted(op.owner, op.name, op.treats, op.now);
      assert Records(After(f, op)) == Records(f) + [r];
      assert r in Records(After(f, op));
    } else {
      NamesStay(f, op);
    }
  }

  /** Only admissions bring in new names. */
  lemma NamesStay(f: File, op: Op)
    requires op.OpNew? ==> !IsAccepted(f, op)
    ensures forall r :: r in Records(After(f, op)) ==> IsThere(f, r.owner, r.name)
  {
    hide Hash, Fed, Asked;
    var rs, rs' := Records(f), Records(After(f, op));
    forall r | r in rs'
      ensures IsThere(f, r.owner, r.name)
    {
      var uid := match op case OpFeed(u, _) => u case OpAsk(u) => u case _ => 0;
      var i := FindUid(rs, uid);
      if r !in rs {
        assert i >= 0 && rs[i] in rs;
        RewriteKeepsNames(rs[i], op);
      }
      assert r in rs ==> IsFor(r, r.owner, r.name);
    }
  }

  lemma RewriteKeepsNames(r: Record, op: Op)
    ensures Asked(r).owner == r.owner && Asked(r).name == r.name
    ensures op.OpFeed? ==> Fed(r, op.treats).owner == r.owner && Fed(r, op.treats).name == r.name
  {
  }

  // ----- the prices -----

  /** A record's price is what the stay costs exactly as long as that fits into an int16_t. */
  lemma PriceIsChargeIff(r: Record, a: Account)
    requires Ledger(r, a.treats, a.admission, a.fed, a.asked)
    ensures r.price == Charge(a) <==> Charge(a) < 0x8000
  {
    ToInt16Adds(Charge(a), 0);
  }

  /** No stay of the owner's costs more than a price can say. */
  ghost predicate Affordable(ops: seq<Op>, owner: CString) {
    forall name :: |name| <= HMSTR_MAX_NAME && Book(ops, owner, name).Some? ==>
      Charge(Book(ops, owner, name).value) < 0x8000
  }

  lemma PriceOf(ops: seq<Op>, r: Record)
    requires r in Records(Run(None, ops)) && Affordable(ops, r.owner)
    ensures Book(ops, r.owner, r.name).Some? && r.price == Charge(Book(ops, r.owner, r.name).value)
  {
    RunKeepsSound(None, ops);
    var rs := Records(Run(None, ops));
    assert SoundRecord(r);
    hide Hash, Ledger;
    BooksAgree(ops, r.owner, r.name);
    var a := Book(ops, r.owner, r.name).value;
    var r' :| r' in rs && IsFor(r', r.owner, r.name) && Ledger(r', a.treats, a.admission, a.fed, a.asked);
    var i :| 0 <= i < |rs| && rs[i] == r;
    var j :| 0 <= j < |rs| && rs[j] == r';
    assert i == j;
    PriceIsChargeIff(r, a);
  }

  // ----- the reply -----

  function Stays(rs: seq<Record>, owner: CString): nat {
    if rs == [] then 0
    else Stays(rs[..|rs| - 1], owner) + (if rs[|rs| - 1].owner == owner then 1 else 0)
  }

  lemma {:induction false} StaysAreRecords(rs: seq<Record>, owner: CString)
    ensures Stays(rs, owner) > 0 <==> exists r :: r in rs && r.owner == owner
  {
    if rs != [] {
      var front, r := rs[..|rs| - 1], rs[|rs| - 1];
      StaysAreRecords(front, owner);
      assert rs == front + [r];
    }
  }

  lemma {:induction false} BillOfPrices(rs: seq<Record>, owner: CString, now: nat)
    requires forall r :: r in rs && r.owner == owner ==> r.admission <= now && r.price >= HMSTR_BASE_PRICE
    ensures Bill(rs, owner, now) >= HMSTR_BASE_PRICE * Stays(rs, owner)
  {
    if rs != [] {
      BillOfPrices(rs[..|rs| - 1], owner, now);
    }
  }

  /** The reply is NOTFOUND also when the bill happens to be that number, and an error also when the bill
      is negative. */
  lemma ReplyIsErrorIff(rs: seq<Record>, owner: CString, now: nat)
    requires forall r :: r in rs && r.owner == owner ==> r.admission <= now
    ensures
      var present, reply := Stays(rs, owner) > 0, CollectReply(rs, owner, now);
      && (reply == HMSTR_ERR_NOTFOUND <==> !present || Bill(rs, owner, now) == HMSTR_ERR_NOTFOUND)
      && (reply < 0 <==> !present || Bill(rs, owner, now) < 0)
  {
    StaysAreRecords(rs, owner);
  }

  /** Such a bill is reached by one admission and one feeding. */
  lemma CollectCanMisreport(owner: CString, name: CString, now: nat)
    requires |owner| <= HMSTR_MAX_NAME && |name| <= HMSTR_MAX_NAME
    ensures
      var rs := Records(Run(None, [OpNew(owner, name, 0, now), OpFeed(Hash(owner, name), 32758)]));
      && |rs| == 1 && rs[0].owner == owner && rs[0].admission == now
      && CollectReply(rs, owner, now) == HMSTR_ERR_NOTFOUND
  {
    hide Hash;
    var admit, feed := OpNew(owner, name, 0, now), OpFeed(Hash(owner, name), 32758);
    var ops := [admit, feed];
    assert ops[..|ops| - 1] == [admit] && ops[|ops| - 1] == feed && [admit][..0] == [];
    var f1 := After(None, admit);
    assert [] + [Admitted(owner, name, 0, now)] == [Admitted(owner, name, 0, now)];
    assert Run(None, [admit]) == f1 && f1 == Some([Admitted(owner, name, 0, now)]);
    var rs := Records(After(f1, feed));
    assert Run(None, ops) == After(Run(None, [admit]), feed);
    assert FindUid(Records(f1), Hash(owner, name)) == 0;
    assert rs == [Fed(Admitted(owner, name, 0, now), 32758)];
    assert rs[0].price == -3;
    assert rs[..0] == [] && rs[0] in rs;
    assert Bill(rs[..0], owner, now) == 0;
    assert Rounds(now, now) == 0;
    assert Bill(rs, owner, now) == Due(rs[0], now) == -3;
  }

  /** In every run after which the owner's stays are affordable: each price is what the books say, the
      bill is at least the base price of every stay, and the reply is negative exactly when there is
      nothing to collect. */
  lemma CollectIsHonest(ops: seq<Op>, owner: CString, now: nat)
    requires Affordable(ops, owner)
    requires forall r :: r in Records(Run(None, ops)) && r.owner == owner ==> r.admission <= now
    ensures
      var rs := Records(Run(None, ops));
      && (forall r :: r in rs && r.owner == owner ==>
            Book(ops, owner, r.name).Some? && r.price == Charge(Book(ops, owner, r.name).value))
      && Bill(rs, owner, now) >= HMSTR_BASE_PRICE * Stays(rs, owner)
      && (CollectReply(rs, owner, now) < 0 <==> Stays(rs, owner) == 0)
  {
    hide Book, Affordable;
    var rs := Records(Run(None, ops));
    forall r | r in rs && r.owner == owner
      ensures Book(ops, owner, r.name).Some? && r.price == Charge(Book(ops, owner, r.name).value)
    {
      PriceOf(ops, r);
    }
    BillOfPrices(rs, owner, now);
    ReplyIsErrorIff(rs, owner, now);
  }
}
