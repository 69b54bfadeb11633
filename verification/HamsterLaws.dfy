/** What holds of the hamster database over whole runs: unique keys, stable ids, the price list, the
    bill, and the directory scan. */
module HamsterLaws {
  import opened Bytes
  import opened HamsterStore

  // ----- runs -----

  datatype Op =
    | OpNew(owner: CString, name: CString, treats: uint16, now: nat)
    | OpFeed(uid: int, treats: uint16)
    | OpAsk(uid: int)
    | OpCollect(owner: CString)

  function After(f: File, op: Op): File {
    match op
    case OpNew(owner, name, treats, now) => AfterNew(f, owner, name, treats, now).0
    case OpFeed(uid, treats) => AfterFeed(f, uid, treats)
    case OpAsk(uid) => AfterAsk(f, uid)
    case OpCollect(owner) =>
      if f.None? || |owner| > HMSTR_MAX_NAME then f else Some(OthersOf(f.value, owner))
  }

  function Run(f: File, ops: seq<Op>): File {
    if ops == [] then f else After(Run(f, ops[..|ops| - 1]), ops[|ops| - 1])
  }

  /** No two records share owner and name, and every id is the hash of its record's names. */
  ghost predicate Sound(f: File) {
    DistinctKeys(Records(f)) && forall r :: r in Records(f) ==> SoundRecord(r)
  }

  ghost predicate DistinctKeys(rs: seq<Record>) {
    forall i, j :: 0 <= i < j < |rs| ==> !IsFor(rs[i], rs[j].owner, rs[j].name)
  }

  predicate SoundRecord(r: Record) {
    |r.owner| <= HMSTR_MAX_NAME && |r.name| <= HMSTR_MAX_NAME && r.uid == Hash(r.owner, r.name)
  }

  lemma {:induction false} OthersKeepDistinct(rs: seq<Record>, owner: CString)
    requires DistinctKeys(rs)
    ensures DistinctKeys(OthersOf(rs, owner))
  {
    if rs != [] {
      var front, r := rs[..|rs| - 1], rs[|rs| - 1];
      OthersKeepDistinct(front, owner);
      assert forall x :: x in front ==> !IsFor(x, r.owner, r.name);
      OneMoreKey(OthersOf(front, owner), r);
    }
  }

  lemma OneMoreKey(rs: seq<Record>, r: Record)
    requires DistinctKeys(rs)
    ensures (forall x :: x in rs ==> !IsFor(x, r.owner, r.name)) ==> DistinctKeys(rs + [r])
  {
    assert forall i :: 0 <= i < |rs| ==> rs[i] in rs;
  }

  lemma OpKeepsSound(f: File, op: Op)
    requires Sound(f)
    ensures Sound(After(f, op))
  {
    hide Bernstein, Key;
    var rs := Records(f);
    match op {
      case OpNew(owner, name, treats, now) =>
        if |owner| <= HMSTR_MAX_NAME && |name| <= HMSTR_MAX_NAME && FindNames(rs, owner, name) < 0 {
          OneMoreKey(rs, Admitted(owner, name, treats, now));
        }
      case OpFeed(uid, treats) =>
        var i := FindUid(rs, uid);
        if i >= 0 {
          RewriteKeepsSound(rs, i, Fed(rs[i], treats));
        }
      case OpAsk(uid) =>
        var i := FindUid(rs, uid);
        if i >= 0 {
          RewriteKeepsSound(rs, i, Asked(rs[i]));
        }
      case OpCollect(owner) => OthersKeepDistinct(rs, owner);
    }
  }

  lemma RewriteKeepsSound(rs: seq<Record>, i: nat, r: Record)
    requires Sound(Some(rs)) && i < |rs|
    requires r.uid == rs[i].uid && r.owner == rs[i].owner && r.name == rs[i].name
    ensures Sound(Some(rs[i := r]))
  {
    hide SoundRecord;
    assert SoundRecord(rs[i]);
    assert SoundRecord(r) by {
      SameSoundness(rs[i], r);
    }
  }

  lemma SameSoundness(a: Record, b: Record)
    requires SoundRecord(a) && b.uid == a.uid && b.owner == a.owner && b.name == a.name
    ensures SoundRecord(b)
  {
  }

  lemma {:induction false} RunKeepsSound(f: File, ops: seq<Op>)
    requires Sound(f)
    ensures Sound(Run(f, ops))
  {
    if ops != [] {
      RunKeepsSound(f, ops[..|ops| - 1]);
      OpKeepsSound(Run(f, ops[..|ops| - 1]), ops[|ops| - 1]);
    }
  }

  /** In every database reachable from the empty one: keys are unique, ids are hashes and never
      negative, and a lookup finds the id of the one record with those names. */
  lemma ReachableIsSound(ops: seq<Op>, owner: CString, name: CString)
    requires |owner| <= HMSTR_MAX_NAME && |name| <= HMSTR_MAX_NAME
    ensures Sound(Run(None, ops))
    ensures LookedUp(Run(None, ops), Some(owner), Some(name)) ==
            if exists r :: r in Records(Run(None, ops)) && IsFor(r, owner, name)
            then Hash(owner, name) else HMSTR_ERR_NOTFOUND
  {
    RunKeepsSound(None, ops);
    var rs := Records(Run(None, ops));
    var i := FindNames(rs, owner, name);
    if i >= 0 {
      assert rs[i] in rs;
    }
  }

  // ----- the price list -----

  /** The record a feeding or an inquiry with this id reaches. */
  predicate Reaches(f: File, uid: int, owner: CString, name: CString) {
    var i := FindUid(Records(f), uid);
    i >= 0 && IsFor(Records(f)[i], owner, name)
  }

  /** The treats fed to the hamster of these names over a run. */
  function TreatsFed(f: File, ops: seq<Op>, owner: CString, name: CString): nat {
    if ops == [] then 0
    else
      var front, op := ops[..|ops| - 1], ops[|ops| - 1];
      TreatsFed(f, front, owner, name)
      + (if op.OpFeed? && Reaches(Run(f, front), op.uid, owner, name) then op.treats else 0)
  }

  /** The inquiries about it. */
  function Inquiries(f: File, ops: seq<Op>, owner: CString, name: CString): nat {
    if ops == [] then 0
    else
      var front, op := ops[..|ops| - 1], ops[|ops| - 1];
      Inquiries(f, front, owner, name)
      + (if op.OpAsk? && Reaches(Run(f, front), op.uid, owner, name) then 1 else 0)
  }

  function Positive(x: int): nat {
    if x > 0 then x else 0
  }

  /** The record of a hamster that came with `treats` treats, after `fed` treats and `asked`
      inquiries: the stock is used up first, each further treat costs 2, each inquiry 1. */
  predicate Ledger(r: Record, treats: uint16, admission: nat, fed: nat, asked: nat) {
    && r.treatsLeft == Positive(treats - fed)
    && r.price == ToInt16(HMSTR_BASE_PRICE + asked * HMSTR_CARE_PRICE + Positive(fed - treats) * HMSTR_FEED_PRICE)
    && r.admission == admission
  }

  lemma FedLedger(r: Record, treats: uint16, admission: nat, fed: nat, asked: nat, more: uint16)
    requires Ledger(r, treats, admission, fed, asked)
    ensures Ledger(Fed(r, more), treats, admission, fed + more, asked)
  {
    var due := HMSTR_BASE_PRICE + asked * HMSTR_CARE_PRICE + Positive(fed - treats) * HMSTR_FEED_PRICE;
    ToInt16Adds(due, (more - r.treatsLeft) * HMSTR_FEED_PRICE);
  }

  lemma AskedLedger(r: Record, treats: uint16, admission: nat, fed: nat, asked: nat)
    requires Ledger(r, treats, admission, fed, asked)
    ensures Ledger(Asked(r), treats, admission, fed, asked + 1)
  {
    var due := HMSTR_BASE_PRICE + asked * HMSTR_CARE_PRICE + Positive(fed - treats) * HMSTR_FEED_PRICE;
    ToInt16Adds(due, HMSTR_CARE_PRICE);
  }

  ghost predicate HasLedger(f: File, owner: CString, name: CString, treats: uint16, admission: nat, fed: nat,
                            asked: nat) {
    exists r :: r in Records(f) && IsFor(r, owner, name) && Ledger(r, treats, admission, fed, asked)
  }

  lemma RewriteKeepsLedger(f: File, i: nat, r': Record, owner: CString, name: CString, treats: uint16, admission: nat,
                           fed: nat, asked: nat, fed': nat, asked': nat)
    requires Sound(f) && HasLedger(f, owner, name, treats, admission, fed, asked)
    requires i < |Records(f)| && r'.owner == Records(f)[i].owner && r'.name == Records(f)[i].name
    requires !IsFor(r', owner, name) ==> fed' == fed && asked' == asked
    requires IsFor(r', owner, name) && Ledger(Records(f)[i], treats, admission, fed, asked) ==>
               Ledger(r', treats, admission, fed', asked')
    ensures HasLedger(Some(Records(f)[i := r']), owner, name, treats, admission, fed', asked')
  {
    hide Ledger;
    var rs := Records(f);
    var r :| r in rs && IsFor(r, owner, name) && Ledger(r, treats, admission, fed, asked);
    var j :| 0 <= j < |rs| && rs[j] == r;
    assert IsFor(rs[i], owner, name) ==> i == j;
    var out := rs[i := r'];
    assert out[j] in out && out[i] in out;
  }

  /** The price list, whatever happens in between and however the feeding is split: as long as its
      owner does not collect, a hamster's record says what the documentation says it should, in the
      arithmetic of an int16_t.  Taken for every key at once, this also says that an operation
      changes no record but the one its id reaches. */
  lemma {:induction false} PriceList(f: File, ops: seq<Op>, owner: CString, name: CString, treats: uint16,
                                     admission: nat)
    requires Sound(f) && HasLedger(f, owner, name, treats, admission, 0, 0)
    requires forall op :: op in ops && op.OpCollect? ==> op.owner != owner
    ensures HasLedger(Run(f, ops), owner, name, treats, admission,
                      TreatsFed(f, ops, owner, name), Inquiries(f, ops, owner, name))
  {
    hide HasLedger, Sound, Reaches, After;
    if ops != [] {
      var front, op := ops[..|ops| - 1], ops[|ops| - 1];
      assert op in ops && forall x :: x in front ==> x in ops;
      PriceList(f, front, owner, name, treats, admission);
      RunKeepsSound(f, front);
      OpKeepsLedger(Run(f, front), op, owner, name, treats, admission,
                    TreatsFed(f, front, owner, name), Inquiries(f, front, owner, name));
    }
  }

  lemma OpKeepsLedger(f: File, op: Op, owner: CString, name: CString, treats: uint16, admission: nat, fed: nat,
                      asked: nat)
    requires Sound(f) && HasLedger(f, owner, name, treats, admission, fed, asked)
    requires op.OpCollect? ==> op.owner != owner
    ensures HasLedger(After(f, op), owner, name, treats, admission,
                      fed + (if op.OpFeed? && Reaches(f, op.uid, owner, name) then op.treats else 0),
                      asked + (if op.OpAsk? && Reaches(f, op.uid, owner, name) then 1 else 0))
  {
    var rs := Records(f);
    match op {
      case OpNew(o, n, t, now) =>
        var r :| r in rs && IsFor(r, owner, name) && Ledger(r, treats, admission, fed, asked);
        assert r in Records(After(f, op));
      case OpCollect(o) =>
        var r :| r in rs && IsFor(r, owner, name) && Ledger(r, treats, admission, fed, asked);
        assert r in Records(After(f, op));
      case OpFeed(uid, more) =>
        var i := FindUid(rs, uid);
        if i >= 0 {
          var hit := IsFor(rs[i], owner, name);
          if Ledger(rs[i], treats, admission, fed, asked) {
            FedLedger(rs[i], treats, admission, fed, asked, more);
          }
          RewriteKeepsLedger(f, i, Fed(rs[i], more), owner, name, treats, admission, fed, asked,
                             if hit then fed + more else fed, asked);
        }
      case OpAsk(uid) =>
        var i := FindUid(rs, uid);
        if i >= 0 {
          var hit := IsFor(rs[i], owner, name);
          if Ledger(rs[i], treats, admission, fed, asked) {
            AskedLedger(rs[i], treats, admission, fed, asked);
          }
          RewriteKeepsLedger(f, i, Asked(rs[i]), owner, name, treats, admission, fed, asked,
                             fed, if hit then asked + 1 else asked);
        }
    }
  }

  /** The id `hmstr_new` returns stays the answer of every lookup until the owner collects. */
  lemma LookupAfterNew(f: File, owner: CString, name: CString, treats: uint16, now: nat, ops: seq<Op>)
    requires Sound(f)
    requires AfterNew(f, owner, name, treats, now).1 >= 0
    requires forall op :: op in ops && op.OpCollect? ==> op.owner != owner
    ensures
      var (f1, uid) := AfterNew(f, owner, name, treats, now);
      && LookedUp(Run(f1, ops), Some(owner), Some(name)) == uid
      && HasLedger(Run(f1, ops), owner, name, treats, now,
                   TreatsFed(f1, ops, owner, name), Inquiries(f1, ops, owner, name))
  {
    hide Hash;
    var (f1, uid) := AfterNew(f, owner, name, treats, now);
    OpKeepsSound(f, OpNew(owner, name, treats, now));
    Accepted(f, owner, name, treats, now);
    PriceList(f1, ops, owner, name, treats, now);
    RunKeepsSound(f1, ops);
    LedgerIsThere(Run(f1, ops), owner, name, treats, now,
                  TreatsFed(f1, ops, owner, name), Inquiries(f1, ops, owner, name));
    hide AfterNew, HasLedger;
    var rs, i := Records(Run(f1, ops)), FindNames(Records(Run(f1, ops)), owner, name);
    assert i >= 0 && rs[i] in rs;
  }

  // ----- when ids are unique -----

  ghost predicate DistinctUids(rs: seq<Record>) {
    forall i, j :: 0 <= i < j < |rs| ==> rs[i].uid != rs[j].uid
  }

  /** They need not be: from the empty database two calls lead to two records with one id. */
  lemma UidsCanCollide(name: CString, treats: uint16, now: nat)
    requires |name| <= HMSTR_MAX_NAME
    ensures
      var f := Run(None, [OpNew([97, 98], name, treats, now), OpNew([98, 65], name, treats, now)]);
      && |Records(f)| == 2 && Records(f)[0].owner == [97, 98] && Records(f)[1].owner == [98, 65]
      && Records(f)[0].uid == Records(f)[1].uid
  {
    hide Hash;
    var first, second := OpNew([97, 98], name, treats, now), OpNew([98, 65], name, treats, now);
    assert [first, second][..1] == [first] && [first][..0] == [];
    assert Run(None, [first]) == After(None, first);
    assert [97, 98][0] != [98, 65][0];
    UidsCollide(name);
  }

  /** Feeding and inquiries by a record's id reach it exactly when no record before it has that id. */
  lemma ReachedIffFirst(f: File, i: nat)
    requires Sound(f) && i < |Records(f)|
    ensures
      var rs := Records(f);
      Reaches(f, rs[i].uid, rs[i].owner, rs[i].name) <==> forall j :: 0 <= j < i ==> rs[j].uid != rs[i].uid
  {
    hide Hash;
  }

  function IsAccepted(f: File, op: Op): bool
    requires op.OpNew?
  {
    AfterNew(f, op.owner, op.name, op.treats, op.now).1 >= 0
  }

  /** An admission keeps ids distinct exactly when no record has the new one's. */
  lemma AdmissionKeepsUids(f: File, owner: CString, name: CString, treats: uint16, now: nat)
    requires DistinctUids(Records(f)) && AfterNew(f, owner, name, treats, now).1 >= 0
    ensures |owner| <= HMSTR_MAX_NAME && |name| <= HMSTR_MAX_NAME
    ensures DistinctUids(Records(AfterNew(f, owner, name, treats, now).0))
            <==> forall r :: r in Records(f) ==> r.uid != Hash(owner, name)
  {
    hide Hash;
    var rs, rs' := Records(f), Records(AfterNew(f, owner, name, treats, now).0);
    assert rs' == rs + [Admitted(owner, name, treats, now)];
    forall r | r in rs && DistinctUids(rs')
      ensures r.uid != Hash(owner, name)
    {
      var i :| 0 <= i < |rs| && rs[i] == r;
      assert rs'[i] == r && rs'[|rs|].uid == Hash(owner, name);
    }
  }

  /** Every admission of the run finds its id unused. */
  ghost predicate IdsFree(f: File, ops: seq<Op>) {
    ops == [] || (IdsFree(f, ops[..|ops| - 1]) && IdFree(Run(f, ops[..|ops| - 1]), ops[|ops| - 1]))
  }

  ghost predicate IdFree(f: File, op: Op) {
    op.OpNew? && |op.owner| <= HMSTR_MAX_NAME && |op.name| <= HMSTR_MAX_NAME && IsAccepted(f, op) ==>
      forall r :: r in Records(f) ==> r.uid != Hash(op.owner, op.name)
  }

  lemma {:induction false} OthersKeepUids(rs: seq<Record>, owner: CString)
    requires DistinctUids(rs)
    ensures DistinctUids(OthersOf(rs, owner))
  {
    if rs != [] {
      var front, r := rs[..|rs| - 1], rs[|rs| - 1];
      OthersKeepUids(front, owner);
      assert forall x :: x in front ==> x.uid != r.uid;
    }
  }

  lemma OpKeepsUids(f: File, op: Op)
    requires DistinctUids(Records(f))
    ensures DistinctUids(Records(After(f, op))) <==> IdFree(f, op)
  {
    hide Hash;
    match op {
      case OpNew(owner, name, treats, now) =>
        if IsAccepted(f, op) {
          AdmissionKeepsUids(f, owner, name, treats, now);
        }
      case OpCollect(owner) => OthersKeepUids(Records(f), owner);
      case _ =>
    }
  }

  /** In a run from distinct ids they stay distinct throughout exactly when every admission finds its
      id unused. */
  lemma {:induction false} UidsDistinctIff(f: File, ops: seq<Op>)
    requires DistinctUids(Records(f))
    ensures (forall n :: 0 <= n <= |ops| ==> DistinctUids(Records(Run(f, ops[..n])))) <==> IdsFree(f, ops)
  {
    hide DistinctUids, IdFree, After;
    if ops == [] {
      assert Run(f, ops[..0]) == f;
    } else {
      var front, op := ops[..|ops| - 1], ops[|ops| - 1];
      UidsDistinctIff(f, front);
      assert forall n :: 0 <= n <= |front| ==> ops[..n] == front[..n];
      assert front[..|front|] == front && ops[..|ops|] == ops;
      if DistinctUids(Records(Run(f, front))) {
        OpKeepsUids(Run(f, front), op);
      }
    }
  }

  /** The treats given with an id over a run, and the inquiries made with it. */
  function FedTo(ops: seq<Op>, uid: int): nat {
    if ops == [] then 0
    else
      var op := ops[|ops| - 1];
      FedTo(ops[..|ops| - 1], uid) + (if op.OpFeed? && op.uid == uid then op.treats else 0)
  }

  function AskedOf(ops: seq<Op>, uid: int): nat {
    if ops == [] then 0
    else
      var op := ops[|ops| - 1];
      AskedOf(ops[..|ops| - 1], uid) + (if op.OpAsk? && op.uid == uid then 1 else 0)
  }

  /** With distinct ids, exactly the operations with the hamster's id reach it. */
  lemma ReachedById(f: File, uid: int, owner: CString, name: CString)
    requires Sound(f) && DistinctUids(Records(f)) && |owner| <= HMSTR_MAX_NAME && |name| <= HMSTR_MAX_NAME
    requires exists r :: r in Records(f) && IsFor(r, owner, name)
    ensures Reaches(f, uid, owner, name) <==> uid == Hash(owner, name)
  {
    hide Hash;
    var rs := Records(f);
    var r :| r in rs && IsFor(r, owner, name);
    var i :| 0 <= i < |rs| && rs[i] == r;
    assert SoundRecord(rs[i]);
    ReachedIffFirst(f, i);
    var k := FindUid(rs, uid);
    assert k >= 0 ==> rs[k] in rs && SoundRecord(rs[k]);
  }

  lemma {:induction false} ReachedAreWithId(f: File, ops: seq<Op>, owner: CString, name: CString, treats: uint16,
                                            admission: nat)
    requires Sound(f) && HasLedger(f, owner, name, treats, admission, 0, 0)
    requires |owner| <= HMSTR_MAX_NAME && |name| <= HMSTR_MAX_NAME
    requires forall op :: op in ops && op.OpCollect? ==> op.owner != owner
    requires forall n :: 0 <= n <= |ops| ==> DistinctUids(Records(Run(f, ops[..n])))
    ensures TreatsFed(f, ops, owner, name) == FedTo(ops, Hash(owner, name))
    ensures Inquiries(f, ops, owner, name) == AskedOf(ops, Hash(owner, name))
  {
    hide HasLedger, Sound, Reaches, After, DistinctUids, Hash;
    if ops != [] {
      var front, op := ops[..|ops| - 1], ops[|ops| - 1];
      assert op in ops && forall x :: x in front ==> x in ops;
      assert forall n :: 0 <= n <= |front| ==> ops[..n] == front[..n];
      assert ops[..|front|] == front;
      ReachedAreWithId(f, front, owner, name, treats, admission);
      PriceList(f, front, owner, name, treats, admission);
      RunKeepsSound(f, front);
      LedgerIsThere(Run(f, front), owner, name, treats, admission,
                    TreatsFed(f, front, owner, name), Inquiries(f, front, owner, name));
      if op.OpFeed? || op.OpAsk? {
        ReachedById(Run(f, front), op.uid, owner, name);
      }
    }
  }

  lemma LedgerIsThere(f: File, owner: CString, name: CString, treats: uint16, admission: nat, fed: nat, asked: nat)
    requires HasLedger(f, owner, name, treats, admission, fed, asked)
    ensures exists r :: r in Records(f) && IsFor(r, owner, name)
  {
  }

  /** The price list by id, as a caller sees it: when every admission finds its id unused, a hamster's
      record counts all treats given and all inquiries made with the id that `hmstr_new` returned for
      it, until its owner collects. */
  lemma PriceListById(f: File, owner: CString, name: CString, treats: uint16, now: nat, ops: seq<Op>)
    requires Sound(f) && DistinctUids(Records(f)) && AfterNew(f, owner, name, treats, now).1 >= 0
    requires IdFree(f, OpNew(owner, name, treats, now)) && IdsFree(AfterNew(f, owner, name, treats, now).0, ops)
    requires forall op :: op in ops && op.OpCollect? ==> op.owner != owner
    ensures
      var (f1, uid) := AfterNew(f, owner, name, treats, now);
      HasLedger(Run(f1, ops), owner, name, treats, now, FedTo(ops, uid), AskedOf(ops, uid))
  {
    hide HasLedger, Sound, DistinctUids, IdFree, IdsFree, Hash;
    var (f1, uid) := AfterNew(f, owner, name, treats, now);
    Accepted(f, owner, name, treats, now);
    OpKeepsUids(f, OpNew(owner, name, treats, now));
    OpKeepsSound(f, OpNew(owner, name, treats, now));
    hide AfterNew;
    UidsDistinctIff(f1, ops);
    ReachedAreWithId(f1, ops, owner, name, treats, now);
    PriceList(f1, ops, owner, name, treats, now);
  }

  /** What an accepted admission leads to. */
  lemma Accepted(f: File, owner: CString, name: CString, treats: uint16, now: nat)
    requires AfterNew(f, owner, name, treats, now).1 >= 0
    ensures |owner| <= HMSTR_MAX_NAME && |name| <= HMSTR_MAX_NAME
    ensures
      var (f1, uid) := AfterNew(f, owner, name, treats, now);
      uid == Hash(owner, name) && HasLedger(f1, owner, name, treats, now, 0, 0)
  {
    hide Hash;
    var f1, r := AfterNew(f, owner, name, treats, now).0, Admitted(owner, name, treats, now);
    assert f1.value[|Records(f)|] == r;
    assert r in Records(f1) && Ledger(r, treats, now, 0, 0);
  }

  // ----- the bill -----

  /** What everybody owes together. */
  function TotalDue(rs: seq<Record>, now: nat): int
    requires forall r :: r in rs ==> r.admission <= now
  {
    if rs == [] then 0 else TotalDue(rs[..|rs| - 1], now) + Due(rs[|rs| - 1], now)
  }

  lemma TotalDueSnoc(rs: seq<Record>, r: Record, now: nat)
    requires r.admission <= now && forall x :: x in rs ==> x.admission <= now
    ensures TotalDue(rs + [r], now) == TotalDue(rs, now) + Due(r, now)
  {
    assert (rs + [r])[..|rs|] == rs;
  }

  lemma OthersSnoc(rs: seq<Record>, r: Record, owner: CString)
    ensures OthersOf(rs + [r], owner) == if r.owner != owner then OthersOf(rs, owner) + [r] else OthersOf(rs, owner)
  {
    assert (rs + [r])[..|rs|] == rs;
  }

  /** Collecting moves money and loses none: the bill and what the others still owe make up what was
      owed. */
  lemma {:induction false} CollectConserves(rs: seq<Record>, owner: CString, now: nat)
    requires forall r :: r in rs ==> r.admission <= now
    ensures Bill(rs, owner, now) + TotalDue(OthersOf(rs, owner), now) == TotalDue(rs, now)
  {
    if rs != [] {
      hide Due, OthersOf, TotalDue;
      var front, r := rs[..|rs| - 1], rs[|rs| - 1];
      assert rs == front + [r];
      CollectConserves(front, owner, now);
      OthersSnoc(front, r, owner);
      TotalDueSnoc(front, r, now);
      TotalDueSnoc(OthersOf(front, owner), r, now);
    }
  }

  /** A second collect finds nothing left and changes nothing. */
  lemma {:induction false} SecondCollectFindsNothing(rs: seq<Record>, owner: CString)
    ensures OthersOf(OthersOf(rs, owner), owner) == OthersOf(rs, owner)
    ensures !exists r :: r in OthersOf(rs, owner) && r.owner == owner
  {
    if rs != [] {
      hide OthersOf;
      var front, r := rs[..|rs| - 1], rs[|rs| - 1];
      assert rs == front + [r];
      SecondCollectFindsNothing(front, owner);
      OthersSnoc(front, r, owner);
      OthersSnoc(OthersOf(front, owner), r, owner);
    }
  }

  // ----- the directory -----

  /** The ids of the matching records, in file order. */
  function Matches(rs: seq<Record>, owner: Option<CString>, name: Option<CString>): seq<int> {
    if rs == [] then []
    else (if Passes(rs[0], owner, name) then [rs[0].uid] else []) + Matches(rs[1..], owner, name)
  }

  lemma {:induction false} NextIsFirstMatch(rs: seq<Record>, pos: nat, owner: Option<CString>, name: Option<CString>)
    requires pos <= |rs|
    ensures
      var (r, scan) := NextFrom(rs, pos, owner, name);
      var rest := Matches(rs[pos..], owner, name);
      if rest == [] then r == HMSTR_ERR_NOTFOUND && scan == None
      else r == rest[0] && scan.Some? && scan.value <= |rs| && Matches(rs[scan.value..], owner, name) == rest[1..]
    decreases |rs| - pos
  {
    if pos < |rs| {
      assert rs[pos..][1..] == rs[pos + 1..];
      NextIsFirstMatch(rs, pos + 1, owner, name);
    }
  }

  /** Filters that hmstr_directory does not refuse. */
  predicate FiltersFit(owner: Option<CString>, name: Option<CString>) {
    && (owner.Some? ==> |owner.value| <= HMSTR_MAX_NAME)
    && (name.Some? ==> |name.value| <= HMSTR_MAX_NAME)
  }

  /** The replies of `n` calls in a row on an unchanged file, and where the scan stands after them. */
  function Calls(rs: seq<Record>, scan: Option<nat>, owner: Option<CString>, name: Option<CString>, n: nat)
    : (seq<int>, Option<nat>)
    requires scan.Some? ==> scan.value <= |rs|
    decreases n
  {
    if n == 0 then ([], scan)
    else
      NextIsFirstMatch(rs, Position(scan), owner, name);
      var (r, scan1) := Next(Some(rs), scan, owner, name);
      var (more, scan2) := Calls(rs, scan1, owner, name, n - 1);
      ([r] + more, scan2)
  }

  /** Where the next call starts to read. */
  function Position(scan: Option<nat>): nat {
    if scan.None? then 0 else scan.value
  }

  lemma {:induction false} CallsEnumerate(rs: seq<Record>, scan: Option<nat>, owner: Option<CString>,
                                          name: Option<CString>, n: nat)
    requires FiltersFit(owner, name) && (scan.Some? ==> scan.value <= |rs|)
    requires n == |Matches(rs[Position(scan)..], owner, name)|
    ensures Calls(rs, scan, owner, name, n + 1) ==
            (Matches(rs[Position(scan)..], owner, name) + [HMSTR_ERR_NOTFOUND], None)
    decreases n
  {
    var pos := Position(scan);
    NextIsFirstMatch(rs, pos, owner, name);
    hide Matches, NextFrom;
    if n > 0 {
      var (r, scan1) := NextFrom(rs, pos, owner, name);
      CallsEnumerate(rs, scan1, owner, name, n - 1);
      var rest := Matches(rs[pos..], owner, name);
      assert [rest[0]] + (rest[1..] + [HMSTR_ERR_NOTFOUND]) == rest + [HMSTR_ERR_NOTFOUND];
    } else {
      assert Calls(rs, None, owner, name, 0) == ([], None);
      assert [HMSTR_ERR_NOTFOUND] + [] == [] + [HMSTR_ERR_NOTFOUND];
    }
  }

  /** A scan from handle -1 gives the ids of exactly the matching records, each once and in file
      order, then NOTFOUND with the handle back at -1, ready to start again.  A filter that is too
      long is refused at every call, and the handle stays as it is. */
  lemma DirectoryEnumerates(rs: seq<Record>, owner: Option<CString>, name: Option<CString>)
    ensures FiltersFit(owner, name) ==>
              Calls(rs, None, owner, name, |Matches(rs, owner, name)| + 1) ==
              (Matches(rs, owner, name) + [HMSTR_ERR_NOTFOUND], None)
    ensures !FiltersFit(owner, name) ==> forall n: nat :: AllRefused(Calls(rs, None, owner, name, n), n)
  {
    if FiltersFit(owner, name) {
      assert rs[0..] == rs;
      CallsEnumerate(rs, None, owner, name, |Matches(rs, owner, name)|);
    } else {
      forall n: nat
        ensures AllRefused(Calls(rs, None, owner, name, n), n)
      {
        CallsRefused(rs, owner, name, n);
      }
    }
  }

  predicate AllRefused(calls: (seq<int>, Option<nat>), n: nat) {
    |calls.0| == n && (forall r :: r in calls.0 ==> r == HMSTR_ERR_NAMETOOLONG) && calls.1 == None
  }

  lemma {:induction false} CallsRefused(rs: seq<Record>, owner: Option<CString>, name: Option<CString>, n: nat)
    requires !FiltersFit(owner, name)
    ensures AllRefused(Calls(rs, None, owner, name, n), n)
  {
    if n > 0 {
      CallsRefused(rs, owner, name, n - 1);
    }
  }
}
