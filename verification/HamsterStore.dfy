/** The hamster database (libsrc/hmstr_*.c): a file of fixed-size records, read one after the other
    and rewritten in place. */
module HamsterStore {
  import opened Bytes

  const HMSTR_MAX_NAME := 31
  const HMSTR_BASE_PRICE := 17
  const HMSTR_STAY_PRICE := 5
  const HMSTR_CARE_PRICE := 1
  const HMSTR_FEED_PRICE := 2
  const HMSTR_RPM := 25

  const HMSTR_ERR_NAMETOOLONG := -1
  const HMSTR_ERR_EXISTS := -2
  const HMSTR_ERR_NOTFOUND := -3
  const HMSTR_ERR_STORE := -100

  type int16 = x: int | -0x8000 <= x < 0x8000
  type uint16 = x: int | 0 <= x < 0x1_0000

  /** A record; the admission time is in microseconds. */
  datatype Record = Record(uid: int, admission: nat, owner: CString, name: CString, price: int16, treatsLeft: uint16)

  /** The data file: its records, or nothing when it does not exist. */
  type File = Option<seq<Record>>

  function Records(f: File): seq<Record> {
    if f.None? then [] else f.value
  }

  /** Storing an int in an int16_t. */
  function ToInt16(x: int): int16 {
    var m := x % 0x1_0000;
    if m < 0x8000 then m else m - 0x1_0000
  }

  lemma ToInt16Adds(a: int, b: int)
    ensures ToInt16(ToInt16(a) + b) == ToInt16(a + b)
    ensures -0x8000 <= a < 0x8000 ==> ToInt16(a) == a
  {
  }

  predicate IsFor(r: Record, owner: CString, name: CString) {
    r.owner == owner && r.name == name
  }

  // ----- the hash -----

  /** The value of a char, which is signed. */
  function CharValue(c: byte): int {
    if c < 128 then c else c - 256
  }

  /** Both names in one buffer, each padded with NULs to the size of its field. */
  function Key(owner: CString, name: CString): (k: seq<byte>)
    requires |owner| <= HMSTR_MAX_NAME && |name| <= HMSTR_MAX_NAME
    ensures |k| == 2 * (HMSTR_MAX_NAME + 1)
  {
    owner + seq(HMSTR_MAX_NAME + 1 - |owner|, _ => 0) + name + seq(HMSTR_MAX_NAME + 1 - |name|, _ => 0)
  }

  /** Bernstein's hash in 32-bit arithmetic. */
  function Bernstein(k: seq<byte>): (h: int)
    ensures 0 <= h < 0x1_0000_0000
  {
    if k == [] then 5381
    else (33 * Bernstein(k[..|k| - 1]) + CharValue(k[|k| - 1])) % 0x1_0000_0000
  }

  function Hash(owner: CString, name: CString): (h: int)
    requires |owner| <= HMSTR_MAX_NAME && |name| <= HMSTR_MAX_NAME
    ensures 0 <= h < 0x8000_0000
  {
    Bernstein(Key(owner, name)) / 2
  }

  /** make_hash */
  method MakeHash(owner: CString, name: CString) returns (uid: int)
    requires |owner| <= HMSTR_MAX_NAME && |name| <= HMSTR_MAX_NAME
    ensures uid == Hash(owner, name)
  {
    var key := Key(owner, name);
    var hash := 5381;
    for i := 0 to 2 * (HMSTR_MAX_NAME + 1)
      invariant hash == Bernstein(key[..i])
    {
      assert key[..i + 1][..i] == key[..i];
      hash := (33 * hash + CharValue(key[i])) % 0x1_0000_0000;
    }
    assert key[..|key|] == key;
    uid := hash / 2;
  }

  lemma {:induction false} BernsteinGoesOn(a: seq<byte>, b: seq<byte>, rest: seq<byte>)
    requires Bernstein(a) == Bernstein(b)
    ensures Bernstein(a + rest) == Bernstein(b + rest)
    decreases |rest|
  {
    if rest == [] {
      assert a + rest == a && b + rest == b;
    } else {
      BernsteinGoesOn(a, b, rest[..|rest| - 1]);
      assert (a + rest)[..|a + rest| - 1] == a + rest[..|rest| - 1];
      assert (b + rest)[..|b + rest| - 1] == b + rest[..|rest| - 1];
    }
  }

  /** "Unique" ids are not: whatever the hamster's name, the owners "ab" and "bA" share one. */
  lemma UidsCollide(name: CString)
    requires |name| <= HMSTR_MAX_NAME
    ensures Hash([97, 98], name) == Hash([98, 65], name)
  {
    var rest := seq(HMSTR_MAX_NAME - 1, _ => 0) + name + seq(HMSTR_MAX_NAME + 1 - |name|, _ => 0);
    assert Key([97, 98], name) == [97, 98] + rest;
    assert Key([98, 65], name) == [98, 65] + rest;
    assert Bernstein([]) == 5381;
    assert [97, 98][..1] == [97] && [98, 65][..1] == [98] && [97][..0] == [] && [98][..0] == [];
    assert Bernstein([97]) == 33 * 5381 + 97 && Bernstein([98]) == 33 * 5381 + 98;
    assert Bernstein([97, 98]) == Bernstein([98, 65]);
    BernsteinGoesOn([97, 98], [98, 65], rest);
  }

  // ----- what the operations do to the file -----

  /** The index of the first record satisfying the search, -1 when there is none. */
  function FindNames(rs: seq<Record>, owner: CString, name: CString): (i: int)
    ensures -1 <= i < |rs| && (i >= 0 ==> IsFor(rs[i], owner, name))
    ensures forall j :: 0 <= j < (if i < 0 then |rs| else i) ==> !IsFor(rs[j], owner, name)
  {
    if rs == [] then -1
    else if IsFor(rs[0], owner, name) then 0
    else
      var i := FindNames(rs[1..], owner, name);
      if i < 0 then -1 else i + 1
  }

  function FindUid(rs: seq<Record>, uid: int): (i: int)
    ensures -1 <= i < |rs| && (i >= 0 ==> rs[i].uid == uid)
    ensures forall j :: 0 <= j < (if i < 0 then |rs| else i) ==> rs[j].uid != uid
  {
    if rs == [] then -1
    else if rs[0].uid == uid then 0
    else
      var i := FindUid(rs[1..], uid);
      if i < 0 then -1 else i + 1
  }

  function Admitted(owner: CString, name: CString, treats: uint16, now: nat): Record
    requires |owner| <= HMSTR_MAX_NAME && |name| <= HMSTR_MAX_NAME
  {
    Record(Hash(owner, name), now, owner, name, HMSTR_BASE_PRICE, treats)
  }

  function AfterNew(f: File, owner: CString, name: CString, treats: uint16, now: nat): (File, int) {
    if |owner| > HMSTR_MAX_NAME || |name| > HMSTR_MAX_NAME then (f, HMSTR_ERR_NAMETOOLONG)
    else if FindNames(Records(f), owner, name) >= 0 then (f, HMSTR_ERR_EXISTS)
    else (Some(Records(f) + [Admitted(owner, name, treats, now)]), Hash(owner, name))
  }

  /** A record after `treats` treats: the stock first, then extra ones at a price. */
  function Fed(r: Record, treats: uint16): Record {
    if treats > r.treatsLeft
    then r.(treatsLeft := 0, price := ToInt16(r.price + (treats - r.treatsLeft) * HMSTR_FEED_PRICE))
    else r.(treatsLeft := r.treatsLeft - treats)
  }

  function Asked(r: Record): Record {
    r.(price := ToInt16(r.price + HMSTR_CARE_PRICE))
  }

  function AfterFeed(f: File, uid: int, treats: uint16): File {
    var rs := Records(f);
    var i := FindUid(rs, uid);
    if i < 0 then f else Some(rs[i := Fed(rs[i], treats)])
  }

  function AfterAsk(f: File, uid: int): File {
    var rs := Records(f);
    var i := FindUid(rs, uid);
    if i < 0 then f else Some(rs[i := Asked(rs[i])])
  }

  /** Wheel revolutions since admission, at 25 a minute, counting whole seconds. */
  function Rounds(now: nat, admission: nat): nat
    requires admission <= now
  {
    (now - admission) / 1_000_000 * HMSTR_RPM / 60
  }

  /** What an owner owes for one record. */
  function Due(r: Record, now: nat): int
    requires r.admission <= now
  {
    r.price + Rounds(now, r.admission) * HMSTR_STAY_PRICE / 1000
  }

  function Bill(rs: seq<Record>, owner: CString, now: nat): int
    requires forall r :: r in rs && r.owner == owner ==> r.admission <= now
  {
    if rs == [] then 0
    else
      var r := rs[|rs| - 1];
      Bill(rs[..|rs| - 1], owner, now) + (if r.owner == owner then Due(r, now) else 0)
  }

  /** What hmstr_collect returns: the bill as it is, or an error code that a bill may equal. */
  function CollectReply(rs: seq<Record>, owner: CString, now: nat): int
    requires forall r :: r in rs && r.owner == owner ==> r.admission <= now
  {
    if exists r :: r in rs && r.owner == owner then Bill(rs, owner, now) else HMSTR_ERR_NOTFOUND
  }

  function OthersOf(rs: seq<Record>, owner: CString): (o: seq<Record>)
    ensures forall r :: r in o <==> r in rs && r.owner != owner
  {
    if rs == [] then []
    else OthersOf(rs[..|rs| - 1], owner) + (if rs[|rs| - 1].owner != owner then [rs[|rs| - 1]] else [])
  }

  // ----- the library -----

  /** The file position of a directory scan behind the caller's handle; -1 is the handle's value
      before the first call and after the last. */
  class Handle {
    var fd: int
    var pos: nat

    constructor ()
      ensures fd == -1
    {
      fd, pos := -1, 0;
    }
  }

  class Asylum {
    var file: File

    /** hmstr_new: scans the whole file for a duplicate, then appends. */
    method New(owner: CString, name: CString, treats: uint16, now: nat) returns (r: int)
      modifies this
      ensures (file, r) == AfterNew(old(file), owner, name, treats, now)
    {
      if |owner| > HMSTR_MAX_NAME || |name| > HMSTR_MAX_NAME {
        return HMSTR_ERR_NAMETOOLONG;
      }
      file := Some(Records(file));  // created if necessary
      var rs, pos := file.value, 0;
      while pos < |rs|
        modifies {}
        invariant 0 <= pos <= |rs| && forall j :: 0 <= j < pos ==> !IsFor(rs[j], owner, name)
      {
        if rs[pos].owner == owner && rs[pos].name == name {
          return HMSTR_ERR_EXISTS;
        }
        pos := pos + 1;
      }
      r := MakeHash(owner, name);
      file := Some(rs + [Record(r, now, owner, name, HMSTR_BASE_PRICE, treats)]);
    }

    /** hmstr_lookup; None stands for a NULL name. */
    method Lookup(owner: Option<CString>, name: Option<CString>) returns (r: int)
      ensures r == LookedUp(file, owner, name)
    {
      if owner.None? || name.None? {
        return HMSTR_ERR_NOTFOUND;
      }
      if |owner.value| > HMSTR_MAX_NAME || |name.value| > HMSTR_MAX_NAME {
        return HMSTR_ERR_NAMETOOLONG;
      }
      if file.None? {
        return HMSTR_ERR_NOTFOUND;
      }
      var rs, pos := file.value, 0;
      while pos < |rs|
        invariant 0 <= pos <= |rs| && forall j :: 0 <= j < pos ==> !IsFor(rs[j], owner.value, name.value)
      {
        if rs[pos].owner == owner.value && rs[pos].name == name.value {
          return rs[pos].uid;
        }
        pos := pos + 1;
      }
      r := HMSTR_ERR_NOTFOUND;
    }

    /** The scan that givetreats and howsdoing share: the position of the first record with this id. */
    method Seek(uid: int) returns (pos: int)
      ensures pos == FindUid(Records(file), uid)
    {
      if file.None? {
        return -1;
      }
      pos := 0;
      while pos < |file.value|
        invariant 0 <= pos <= |file.value| && forall j :: 0 <= j < pos ==> file.value[j].uid != uid
      {
        if file.value[pos].uid == uid {
          return;
        }
        pos := pos + 1;
      }
      pos := -1;
    }

    /** hmstr_givetreats */
    method GiveTreats(uid: int, treats: uint16) returns (r: int)
      modifies this
      ensures file == AfterFeed(old(file), uid, treats)
      ensures var i := FindUid(Records(old(file)), uid);
        r == if i < 0 then HMSTR_ERR_NOTFOUND
             else if treats > old(file).value[i].treatsLeft then 0 else old(file).value[i].treatsLeft - treats
    {
      var pos := Seek(uid);
      if pos < 0 {
        return HMSTR_ERR_NOTFOUND;
      }
      var h := file.value[pos];
      if treats > h.treatsLeft {
        var extra := treats - h.treatsLeft;
        h := h.(treatsLeft := 0);
        h := h.(price := ToInt16(h.price + extra * HMSTR_FEED_PRICE));
      } else {
        h := h.(treatsLeft := h.treatsLeft - treats);
      }
      file := Some(file.value[pos := h]);
      r := h.treatsLeft;
    }

    /** hmstr_howsdoing; the state is what the caller's struct is filled with. */
    method HowsDoing(uid: int, now: nat) returns (r: int, treatsLeft: uint16, rounds: nat, cost: int16)
      requires var i := FindUid(Records(file), uid); i >= 0 ==> Records(file)[i].admission <= now
      modifies this
      ensures file == AfterAsk(old(file), uid)
      ensures var i := FindUid(Records(old(file)), uid);
        if i < 0 then r == HMSTR_ERR_NOTFOUND
        else r == 0 && treatsLeft == file.value[i].treatsLeft && rounds == Rounds(now, file.value[i].admission)
             && cost == ToInt16(Due(file.value[i], now))
      ensures var i := FindUid(Records(old(file)), uid);
        i >= 0 ==> var secs := (now - file.value[i].admission) / 1_000_000;
                   && 60 * rounds <= 25 * secs < 60 * (rounds + 1)
                   && cost == ToInt16(file.value[i].price + 5 * rounds / 1000)
    {
      treatsLeft, rounds, cost := 0, 0, 0;
      var pos := Seek(uid);
      if pos < 0 {
        r := HMSTR_ERR_NOTFOUND;
        return;
      }
      var h := file.value[pos];
      treatsLeft := h.treatsLeft;
      rounds := Rounds(now, h.admission);
      h := h.(price := ToInt16(h.price + HMSTR_CARE_PRICE));
      cost := ToInt16(h.price + rounds * HMSTR_STAY_PRICE / 1000);
      file := Some(file.value[pos := h]);
      r := 0;
    }

    /** hmstr_collect: copies the other owners' records to a new file and adds up the bill.  A file that
        does not exist cannot be renamed. */
    method Collect(owner: Option<CString>, now: nat) returns (r: int)
      requires owner.Some? ==> forall h :: h in Records(file) && h.owner == owner.value ==> h.admission <= now
      modifies this
      ensures owner.None? ==> r == HMSTR_ERR_NOTFOUND && file == old(file)
      ensures owner.Some? && |owner.value| > HMSTR_MAX_NAME ==> r == HMSTR_ERR_NAMETOOLONG && file == old(file)
      ensures owner.Some? && |owner.value| <= HMSTR_MAX_NAME && old(file).None? ==>
                r == HMSTR_ERR_STORE && file == old(file)
      ensures owner.Some? && |owner.value| <= HMSTR_MAX_NAME && old(file).Some? ==>
                && file == Some(OthersOf(old(file).value, owner.value))
                && r == CollectReply(old(file).value, owner.value, now)
    {
      if owner.None? {
        return HMSTR_ERR_NOTFOUND;
      }
      if |owner.value| > HMSTR_MAX_NAME {
        return HMSTR_ERR_NAMETOOLONG;
      }
      if file.None? {
        return HMSTR_ERR_STORE;
      }
      var total, found, rest := SplitFile(file.value, owner.value, now);
      file := Some(rest);
      r := if found then total else HMSTR_ERR_NOTFOUND;
    }

    /** The copying loop of hmstr_collect. */
    static method SplitFile(intermediate: seq<Record>, owner: CString, now: nat)
      returns (totalPrice: int, found: bool, rest: seq<Record>)
      requires forall h :: h in intermediate && h.owner == owner ==> h.admission <= now
      ensures rest == OthersOf(intermediate, owner) && totalPrice == Bill(intermediate, owner, now)
      ensures found <==> exists h :: h in intermediate && h.owner == owner
    {
      hide Bill, OthersOf, Rounds;
      var pos := 0;
      CollectStart(owner, now);
      totalPrice, found, rest := 0, false, [];
      while pos < |intermediate|
        invariant 0 <= pos <= |intermediate|
        invariant rest == OthersOf(intermediate[..pos], owner)
        invariant totalPrice == Bill(intermediate[..pos], owner, now)
        invariant found <==> exists h :: h in intermediate[..pos] && h.owner == owner
      {
        var h := intermediate[pos];
        CollectStep(intermediate, pos, owner, now);
        if h.owner == owner {
          totalPrice := totalPrice + (h.price + Rounds(now, h.admission) * HMSTR_STAY_PRICE / 1000);
          found := true;
        } else {
          rest := rest + [h];
        }
        pos := pos + 1;
      }
      assert intermediate[..pos] == intermediate;
    }

    /** hmstr_directory: one matching id a call; None is a NULL filter. */
    method Directory(h: Handle, owner: Option<CString>, name: Option<CString>) returns (r: int)
      requires h.fd >= 0 ==> file.Some? && h.pos <= |file.value|
      modifies h
      ensures file == old(file)
      ensures (r, Scan(h)) == Next(file, old(Scan(h)), owner, name)
    {
      if (owner.Some? && |owner.value| > HMSTR_MAX_NAME) || (name.Some? && |name.value| > HMSTR_MAX_NAME) {
        return HMSTR_ERR_NAMETOOLONG;
      }
      if h.fd < 0 {
        if file.None? {
          h.fd := -1;
          return HMSTR_ERR_NOTFOUND;
        }
        h.fd, h.pos := 0, 0;  // some open file descriptor
      }
      while h.pos < |file.value|
        invariant h.fd >= 0 && h.pos <= |file.value|
        invariant NextFrom(file.value, h.pos, owner, name) ==
                  NextFrom(file.value, old(if h.fd < 0 then 0 else h.pos), owner, name)
      {
        var record := file.value[h.pos];
        h.pos := h.pos + 1;
        if Passes(record, owner, name) {
          return record.uid;
        }
      }
      h.fd := -1;
      r := HMSTR_ERR_NOTFOUND;
    }
  }

  /** What reading one more record adds to the bill, to the new file and to the owner's records. */
  lemma CollectStep(rs: seq<Record>, pos: nat, owner: CString, now: nat)
    requires pos < |rs| && forall h :: h in rs && h.owner == owner ==> h.admission <= now
    ensures
      var h, mine := rs[pos], rs[pos].owner == owner;
      && (mine ==> h.admission <= now)
      && Bill(rs[..pos + 1], owner, now) == Bill(rs[..pos], owner, now) + (if mine then Due(h, now) else 0)
      && OthersOf(rs[..pos + 1], owner) ==
           (if mine then OthersOf(rs[..pos], owner) else OthersOf(rs[..pos], owner) + [h])
      && ((exists x :: x in rs[..pos + 1] && x.owner == owner) <==>
            mine || exists x :: x in rs[..pos] && x.owner == owner)
  {
    assert rs[..pos + 1][..pos] == rs[..pos];
    assert rs[..pos + 1] == rs[..pos] + [rs[pos]];
  }

  lemma CollectStart(owner: CString, now: nat)
    ensures Bill([], owner, now) == 0 && OthersOf([], owner) == []
  {
  }

  function LookedUp(f: File, owner: Option<CString>, name: Option<CString>): int {
    if owner.None? || name.None? then HMSTR_ERR_NOTFOUND
    else if |owner.value| > HMSTR_MAX_NAME || |name.value| > HMSTR_MAX_NAME then HMSTR_ERR_NAMETOOLONG
    else
      var i := FindNames(Records(f), owner.value, name.value);
      if i < 0 then HMSTR_ERR_NOTFOUND else Records(f)[i].uid
  }

  // ----- the directory scan -----

  /** Where a scan stands: None when the handle is -1. */
  function Scan(h: Handle): Option<nat>
    reads h
  {
    if h.fd < 0 then None else Some(h.pos)
  }

  predicate Passes(r: Record, owner: Option<CString>, name: Option<CString>) {
    (owner.None? || r.owner == owner.value) && (name.None? || r.name == name.value)
  }

  /** One call: the next matching id from `pos` on and the position behind it, or NOTFOUND. */
  function NextFrom(rs: seq<Record>, pos: nat, owner: Option<CString>, name: Option<CString>): (int, Option<nat>)
    requires pos <= |rs|
    decreases |rs| - pos
  {
    if pos == |rs| then (HMSTR_ERR_NOTFOUND, None)
    else if Passes(rs[pos], owner, name) then (rs[pos].uid, Some(pos + 1))
    else NextFrom(rs, pos + 1, owner, name)
  }

  function Next(f: File, scan: Option<nat>, owner: Option<CString>, name: Option<CString>): (int, Option<nat>)
    requires scan.Some? ==> f.Some? && scan.value <= |f.value|
  {
    if (owner.Some? && |owner.value| > HMSTR_MAX_NAME) || (name.Some? && |name.value| > HMSTR_MAX_NAME)
    then (HMSTR_ERR_NAMETOOLONG, scan)
    else if f.None? then (HMSTR_ERR_NOTFOUND, None)
    else NextFrom(f.value, if scan.None? then 0 else scan.value, owner, name)
  }
}
