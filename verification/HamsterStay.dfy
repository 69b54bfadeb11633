/** The database in plain numbers: what a stay costs, what a collect returns, which ids a scan yields, how
    an id is computed. */
module HamsterStay {
  import opened Bytes
  import opened HamsterStore
  import opened HamsterLaws
  import opened HamsterBill

  // ----- the cost of a stay -----

  /** The wheel turns 25 times a minute: with `secs` whole seconds since admission, 60 times the number of
      revolutions is the largest multiple of 60 not above 25 times `secs`. */
  lemma RoundsAre(now: nat, admission: nat, secs: nat)
    requires 1_000_000 * secs <= now - admission < 1_000_000 * (secs + 1)
    ensures 60 * Rounds(now, admission) <= 25 * secs < 60 * (Rounds(now, admission) + 1)
  {
    assert (now - admission) / 1_000_000 == secs;
  }

  /** 5 for every thousand of them is due on top of the price. */
  lemma DueIs(r: Record, now: nat)
    requires r.admission <= now
    ensures 1000 * (Due(r, now) - r.price) <= 5 * Rounds(now, r.admission) < 1000 * (Due(r, now) - r.price + 1)
  {
  }

  /** What the owner of this account owes: 17, 1 for each inquiry, 2 for each treat beyond those brought
      along, and 5 for each thousand revolutions at 25 a minute. */
  function Owed(a: Account, now: nat): int
    requires a.admission <= now
  {
    var secs := (now - a.admission) / 1_000_000;
    17 + a.asked + (if a.fed > a.treats then 2 * (a.fed - a.treats) else 0) + 25 * secs / 60 * 5 / 1000
  }

  // ----- the bill -----

  /** The names of the owner's hamsters, in file order. */
  function NamesOf(rs: seq<Record>, owner: CString): seq<CString> {
    if rs == [] then []
    else NamesOf(rs[..|rs| - 1], owner) + (if rs[|rs| - 1].owner == owner then [rs[|rs| - 1].name] else [])
  }

  /** The accounts of the named hamsters are open, and begin before `now`. */
  ghost predicate Open(ops: seq<Op>, owner: CString, names: seq<CString>, now: nat) {
    forall n :: n in names ==> Book(ops, owner, n).Some? && Book(ops, owner, n).value.admission <= now
  }

  function SumOwed(ops: seq<Op>, owner: CString, names: seq<CString>, now: nat): int
    requires Open(ops, owner, names, now)
  {
    if names == [] then 0
    else
      var front, n := names[..|names| - 1], names[|names| - 1];
      SumOwed(ops, owner, front, now) + Owed(Book(ops, owner, n).value, now)
  }

  lemma RecordIsBooked(ops: seq<Op>, r: Record)
    requires r in Records(Run(None, ops))
    ensures Book(ops, r.owner, r.name).Some?
    ensures var a := Book(ops, r.owner, r.name).value; Ledger(r, a.treats, a.admission, a.fed, a.asked)
  {
    RunKeepsSound(None, ops);
    var rs := Records(Run(None, ops));
    assert SoundRecord(r);
    hide Hash, Ledger;
    BooksAgree(ops, r.owner, r.name);
    var a := Book(ops, r.owner, r.name).value;
    var r' :| r' in rs && IsFor(r', r.owner, r.name) && Ledger(r', a.treats, a.admission, a.fed, a.asked);
    var i :| 0 <= i < |rs| && rs[i] == r;
    var j :| 0 <= j < |rs| && rs[j] == r';
    assert i == j;
  }

  lemma RecordOwes(ops: seq<Op>, r: Record, now: nat)
    requires r in Records(Run(None, ops)) && Affordable(ops, r.owner) && r.admission <= now
    ensures Book(ops, r.owner, r.name).Some? && Book(ops, r.owner, r.name).value.admission <= now
    ensures Due(r, now) == Owed(Book(ops, r.owner, r.name).value, now)
  {
    hide Book, Affordable, Run;
    RecordIsBooked(ops, r);
    PriceOf(ops, r);
  }

  lemma {:induction false} NamesAreRecords(rs: seq<Record>, owner: CString)
    ensures forall n :: n in NamesOf(rs, owner) <==> exists r :: r in rs && r.owner == owner && r.name == n
    ensures |NamesOf(rs, owner)| == Stays(rs, owner)
  {
    if rs != [] {
      var front, r := rs[..|rs| - 1], rs[|rs| - 1];
      NamesAreRecords(front, owner);
      assert rs == front + [r];
    }
  }

  lemma {:induction false} BillIsOwed(ops: seq<Op>, rs: seq<Record>, owner: CString, now: nat)
    requires Affordable(ops, owner)
    requires forall r :: r in rs ==> r in Records(Run(None, ops))
    requires forall r :: r in rs && r.owner == owner ==> r.admission <= now
    ensures Open(ops, owner, NamesOf(rs, owner), now)
    ensures Bill(rs, owner, now) == SumOwed(ops, owner, NamesOf(rs, owner), now)
  {
    hide Affordable, Run, Book, Due, Owed;
    if rs != [] {
      var front, r := rs[..|rs| - 1], rs[|rs| - 1];
      BillIsOwed(ops, front, owner, now);
      if r.owner == owner {
        RecordOwes(ops, r, now);
        assert NamesOf(rs, owner)[..|NamesOf(rs, owner)| - 1] == NamesOf(front, owner);
      } else {
        assert NamesOf(rs, owner) == NamesOf(front, owner);
      }
    }
  }

  lemma LastNameIsNew(front: seq<Record>, r: Record)
    requires DistinctKeys(front + [r])
    ensures r.name !in NamesOf(front, r.owner)
  {
    NamesAreRecords(front, r.owner);
    var rs := front + [r];
    forall x | x in front && x.owner == r.owner
      ensures x.name != r.name
    {
      var k :| 0 <= k < |front| && front[k] == x;
      assert rs[k] == x && rs[|front|] == r;
    }
  }

  lemma {:induction false} NamesDistinct(rs: seq<Record>, owner: CString, i: nat, j: nat)
    requires DistinctKeys(rs) && i < j < |NamesOf(rs, owner)|
    ensures NamesOf(rs, owner)[i] != NamesOf(rs, owner)[j]
  {
    var front, r := rs[..|rs| - 1], rs[|rs| - 1];
    assert rs == front + [r];
    if j < |NamesOf(front, owner)| {
      NamesDistinct(front, owner, i, j);
    } else {
      LastNameIsNew(front, r);
      assert NamesOf(front, owner)[i] in NamesOf(front, owner);
    }
  }

  /** In every run after which the owner's stays are affordable: what hmstr_collect returns is the sum of
      what is owed for the owner's open accounts, each counted once, or NOTFOUND when there is none. */
  lemma CollectFollowsBooks(ops: seq<Op>, owner: CString, now: nat)
    requires |owner| <= 31 && Affordable(ops, owner)
    requires forall r :: r in Records(Run(None, ops)) && r.owner == owner ==> r.admission <= now
    ensures
      var rs := Records(Run(None, ops));
      var names := NamesOf(rs, owner);
      && (forall n :: n in names <==> |n| <= 31 && Book(ops, owner, n).Some?)
      && (forall i, j :: 0 <= i < j < |names| ==> names[i] != names[j])
      && Open(ops, owner, names, now)
      && CollectReply(rs, owner, now) == if names == [] then -3 else SumOwed(ops, owner, names, now)
  {
    var rs := Records(Run(None, ops));
    var names := NamesOf(rs, owner);
    RunKeepsSound(None, ops);
    assert forall r :: r in rs ==> SoundRecord(r);
    assert DistinctKeys(rs);
    hide Affordable, Run, Book, Due, Owed, NamesOf, SumOwed, Bill, Sound, DistinctKeys, Hash, HasAccount, Open;
    BillIsOwed(ops, rs, owner, now);
    NamesAreRecords(rs, owner);
    StaysAreRecords(rs, owner);
    forall i, j | 0 <= i < j < |names|
      ensures names[i] != names[j]
    {
      NamesDistinct(rs, owner, i, j);
    }
    forall n: CString
      ensures n in names <==> |n| <= 31 && Book(ops, owner, n).Some?
    {
      if |n| <= 31 {
        BooksAgree(ops, owner, n);
        assert IsThere(Run(None, ops), owner, n) <==> exists r :: r in rs && r.owner == owner && r.name == n;
      }
    }
  }

  // ----- the ids -----

  /** Character `i` of a name's field, as a signed char; the rest of the field is NULs. */
  function FieldChar(x: CString, i: nat): int {
    if i >= |x| then 0 else if x[i] < 128 then x[i] else x[i] as int - 256
  }

  /** The 64 characters hashed: the owner's field and the name's field, 32 each. */
  function KeyChar(owner: CString, name: CString, i: nat): int {
    if i < 32 then FieldChar(owner, i) else FieldChar(name, i - 32)
  }

  function Pow33(n: nat): nat {
    if n == 0 then 1 else 33 * Pow33(n - 1)
  }

  /** The first `n` characters as digits of a number in base 33. */
  function InBase33(owner: CString, name: CString, n: nat): int {
    if n == 0 then 0 else 33 * InBase33(owner, name, n - 1) + KeyChar(owner, name, n - 1)
  }

  lemma KeyIs(owner: CString, name: CString, i: nat)
    requires |owner| <= 31 && |name| <= 31 && i < 64
    ensures CharValue(Key(owner, name)[i]) == KeyChar(owner, name, i)
  {
  }

  lemma Modulo(a: int, b: int, c: int, m: int)
    requires m > 0 && a % m == b % m
    ensures (33 * a + c) % m == (33 * b + c) % m
  {
    var q := a / m - b / m;
    assert a - b == m * q by {
      assert a == m * (a / m) + a % m && b == m * (b / m) + b % m;
    }
    assert 33 * a + c == 33 * b + c + m * (33 * q);
    Shift(33 * b + c, 33 * q, m);
  }

  lemma Shift(x: int, q: int, m: int)
    requires m > 0
    ensures (x + m * q) % m == x % m
  {
    var y := x + m * q;
    var d := y / m - x / m - q;
    assert m * d == x % m - y % m by {
      assert y == m * (y / m) + y % m && x == m * (x / m) + x % m;
    }
    Multiple(m, d);
  }

  lemma Multiple(m: int, d: int)
    requires m > 0
    ensures d >= 1 ==> m * d >= m
    ensures d <= -1 ==> m * d <= -m
  {
  }

  lemma {:induction false} BernsteinIs(owner: CString, name: CString, n: nat)
    requires |owner| <= 31 && |name| <= 31 && n <= 64
    ensures Bernstein(Key(owner, name)[..n]) == (5381 * Pow33(n) + InBase33(owner, name, n)) % 4294967296
  {
    hide Key, KeyChar;
    var k := Key(owner, name);
    if n == 0 {
      assert k[..0] == [];
    } else {
      BernsteinIs(owner, name, n - 1);
      KeyIs(owner, name, n - 1);
      assert k[..n][..n - 1] == k[..n - 1] && k[..n][n - 1] == k[n - 1];
      var exact := 5381 * Pow33(n - 1) + InBase33(owner, name, n - 1);
      Modulo(Bernstein(k[..n - 1]), exact, KeyChar(owner, name, n - 1), 4294967296);
    }
  }

  /** An id is half of 5381 times 33^64 plus the 64 characters in base 33, modulo 2^32. */
  lemma HashIs(owner: CString, name: CString)
    requires |owner| <= 31 && |name| <= 31
    ensures Hash(owner, name) == (5381 * Pow33(64) + InBase33(owner, name, 64)) % 4294967296 / 2
  {
    hide Pow33, InBase33, Bernstein;
    BernsteinIs(owner, name, 64);
    assert Key(owner, name)[..64] == Key(owner, name);
  }

  // ----- which records -----

  /** The places of the records that a directory scan with these filters yields. */
  function Matching(rs: seq<Record>, owner: Option<CString>, name: Option<CString>): set<int> {
    set i | 0 <= i < |rs| && (owner == None || owner == Some(rs[i].owner)) && (name == None || name == Some(rs[i].name))
  }

  lemma Regroup(a: seq<int>, b: seq<int>, c: seq<int>)
    ensures a + (b + c) == a + b + c
  {
  }

  lemma {:induction false} MatchesSnoc(rs: seq<Record>, r: Record, owner: Option<CString>, name: Option<CString>)
    ensures Matches(rs + [r], owner, name) ==
            Matches(rs, owner, name) + if Passes(r, owner, name) then [r.uid] else []
  {
    hide Passes;
    if rs == [] {
      assert [] + [r] == [r] && [r][1..] == [];
    } else {
      var l, head := rs + [r], if Passes(rs[0], owner, name) then [rs[0].uid] else [];
      assert l[0] == rs[0] && l[1..] == rs[1..] + [r];
      MatchesSnoc(rs[1..], r, owner, name);
      Regroup(head, Matches(rs[1..], owner, name), if Passes(r, owner, name) then [r.uid] else []);
    }
  }

  lemma MatchingSnoc(rs: seq<Record>, r: Record, owner: Option<CString>, name: Option<CString>)
    ensures |Matching(rs + [r], owner, name)| == |Matching(rs, owner, name)| + if Passes(r, owner, name) then 1 else 0
  {
    var more: set<int> := if Passes(r, owner, name) then {|rs|} else {};
    assert Matching(rs + [r], owner, name) == Matching(rs, owner, name) + more;
    assert Matching(rs, owner, name) !! more;
  }

  /** The ids a scan yields are as many as these records. */
  lemma {:induction false} MatchesCounted(rs: seq<Record>, owner: Option<CString>, name: Option<CString>)
    ensures |Matches(rs, owner, name)| == |Matching(rs, owner, name)|
  {
    hide Matches, Matching, Passes;
    if rs == [] {
      NoneMatch(owner, name);
    } else {
      var n := |rs| - 1;
      assert rs == rs[..n] + [rs[n]];
      MatchesCounted(rs[..n], owner, name);
      MatchesSnoc(rs[..n], rs[n], owner, name);
      MatchingSnoc(rs[..n], rs[n], owner, name);
    }
  }

  lemma NoneMatch(owner: Option<CString>, name: Option<CString>)
    ensures Matches([], owner, name) == [] && Matching([], owner, name) == {}
  {
  }

  /** And they come in file order: record `i` behind as many ids as there are such records before it. */
  lemma {:induction false} MatchesInOrder(rs: seq<Record>, owner: Option<CString>, name: Option<CString>, i: nat)
    requires i < |rs| && (owner == None || owner == Some(rs[i].owner)) && (name == None || name == Some(rs[i].name))
    ensures
      var k := |Matching(rs[..i], owner, name)|;
      k < |Matches(rs, owner, name)| && Matches(rs, owner, name)[k] == rs[i].uid
  {
    hide Matches, Matching;
    var n := |rs| - 1;
    assert rs == rs[..n] + [rs[n]];
    MatchesSnoc(rs[..n], rs[n], owner, name);
    if i < n {
      MatchesInOrder(rs[..n], owner, name, i);
      assert rs[..n][..i] == rs[..i];
    } else {
      MatchesCounted(rs[..n], owner, name);
    }
  }

  /** The places of the records that do not belong to this owner. */
  function Foreign(rs: seq<Record>, owner: CString): set<int> {
    set i | 0 <= i < |rs| && rs[i].owner != owner
  }

  lemma ForeignSnoc(rs: seq<Record>, r: Record, owner: CString)
    ensures |Foreign(rs + [r], owner)| == |Foreign(rs, owner)| + if r.owner != owner then 1 else 0
  {
    var more: set<int> := if r.owner != owner then {|rs|} else {};
    assert Foreign(rs + [r], owner) == Foreign(rs, owner) + more;
    assert Foreign(rs, owner) !! more;
  }

  /** What a collect leaves are as many records as these. */
  lemma {:induction false} OthersCounted(rs: seq<Record>, owner: CString)
    ensures |OthersOf(rs, owner)| == |Foreign(rs, owner)|
  {
    hide OthersOf, Foreign;
    if rs == [] {
      NoneForeign(owner);
    } else {
      var n := |rs| - 1;
      assert rs == rs[..n] + [rs[n]];
      OthersCounted(rs[..n], owner);
      OthersSnoc(rs[..n], rs[n], owner);
      ForeignSnoc(rs[..n], rs[n], owner);
    }
  }

  lemma NoneForeign(owner: CString)
    ensures OthersOf([], owner) == [] && Foreign([], owner) == {}
  {
  }

  /** And each of them unchanged and in its place. */
  lemma {:induction false} OthersInOrder(rs: seq<Record>, owner: CString, i: nat)
    requires i < |rs| && rs[i].owner != owner
    ensures var k := |Foreign(rs[..i], owner)|; k < |OthersOf(rs, owner)| && OthersOf(rs, owner)[k] == rs[i]
  {
    hide OthersOf, Foreign;
    var n := |rs| - 1;
    assert rs == rs[..n] + [rs[n]];
    OthersSnoc(rs[..n], rs[n], owner);
    if i < n {
      OthersInOrder(rs[..n], owner, i);
      assert rs[..n][..i] == rs[..i];
    } else {
      OthersCounted(rs[..n], owner);
    }
  }

  // ----- the replies -----

  /** An admission is refused for a name of more than 31 characters, or when the owner has a hamster of that
      name; otherwise the record goes to the end of the file. */
  lemma AdmissionReplies(f: File, owner: CString, name: CString, treats: uint16, now: nat)
    ensures
      AfterNew(f, owner, name, treats, now) ==
      if |owner| > 31 || |name| > 31 then (f, -1)
      else if exists r :: r in Records(f) && r.owner == owner && r.name == name then (f, -2)
      else
        var uid := Hash(owner, name);
        (Some(Records(f) + [Record(uid, now, owner, name, 17, treats)]), uid)
  {
    hide Hash;
    var i := FindNames(Records(f), owner, name);
    if i >= 0 {
      assert Records(f)[i] in Records(f);
    }
  }
}
