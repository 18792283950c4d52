/** The byte string hashed for an input tree, and the text hashed for a cache key. */
module TreeHash {
  import opened Options
  import Text

  type Byte = b: int | 0 <= b < 256
  type Bytes = seq<Byte>

  /** What a listed name is on disk. `Other` is anything that is neither a link, a
      file, nor missing. */
  datatype Kind =
    | Symlink(target: Bytes)
    | File(executable: bool, digest: Bytes)
    | Missing
    | Other

  datatype Record = Record(name: Bytes, kind: Kind)

  const DIGEST_SIZE := 32
  const MODE_LINK: Bytes := [49, 50, 48, 48, 48, 48]           // 120000
  const MODE_EXECUTABLE: Bytes := [49, 48, 48, 55, 53, 53]     // 100755
  const MODE_PLAIN: Bytes := [49, 48, 48, 54, 52, 52]          // 100644
  const MODE_DELETED: Bytes := [100, 101, 108, 101, 116, 101, 100]

  predicate NulFree(b: Bytes) { 0 !in b }

  predicate WellFormed(r: Record) {
    && r.name != [] && NulFree(r.name)
    && match r.kind
       case Symlink(target) => NulFree(target)
       case File(_, digest) => |digest| == DIGEST_SIZE
       case Missing => true
       case Other => false
  }

  function Mode(k: Kind): Bytes
    requires !k.Other?
  {
    match k
    case Symlink(_) => MODE_LINK
    case File(executable, _) => if executable then MODE_EXECUTABLE else MODE_PLAIN
    case Missing => MODE_DELETED
  }

  function Value(k: Kind): Bytes
    requires !k.Other?
  {
    match k
    case Symlink(target) => target
    case File(_, digest) => digest
    case Missing => []
  }

  function Encode(r: Record): Bytes
    requires !r.kind.Other?
  {
    r.name + [0] + Mode(r.kind) + [0] + Value(r.kind) + [0]
  }

  predicate Encodable(rs: seq<Record>) {
    forall i :: 0 <= i < |rs| ==> !rs[i].kind.Other?
  }

  function EncodeAll(rs: seq<Record>): Bytes
    requires Encodable(rs)
  {
    if rs == [] then [] else Encode(rs[0]) + EncodeAll(rs[1..])
  }

  /** The bytes before the first NUL, and the bytes after it. */
  function Cut(b: Bytes): Option<(Bytes, Bytes)> {
    if b == [] then None
    else if b[0] == 0 then Some(([], b[1..]))
    else match Cut(b[1..])
      case None => None
      case Some((head, rest)) => Some(([b[0]] + head, rest))
  }

  lemma {:induction false} CutShortens(b: Bytes)
    requires Cut(b).Some?
    ensures |Cut(b).value.1| < |b|
  {
    if b[0] != 0 { CutShortens(b[1..]); }
  }

  lemma {:induction false} CutFindsTheField(field: Bytes, rest: Bytes)
    requires NulFree(field)
    ensures Cut(field + [0] + rest) == Some((field, rest))
  {
    var b := field + [0] + rest;
    if field == [] {
      assert b[1..] == rest;
    } else {
      assert b[1..] == field[1..] + [0] + rest;
      CutFindsTheField(field[1..], rest);
      assert [field[0]] + field[1..] == field;
    }
  }

  /** The value after a mode: the mode decides whether it is read up to a NUL or as
      32 raw bytes, which may themselves contain NUL. */
  function DecodeValue(mode: Bytes, b: Bytes): Option<(Kind, Bytes)> {
    if mode == MODE_LINK then
      match Cut(b)
      case None => None
      case Some((target, rest)) => Some((Symlink(target), rest))
    else if mode == MODE_EXECUTABLE || mode == MODE_PLAIN then
      if |b| > DIGEST_SIZE && b[DIGEST_SIZE] == 0
      then Some((File(mode == MODE_EXECUTABLE, b[..DIGEST_SIZE]), b[DIGEST_SIZE + 1..]))
      else None
    else if mode == MODE_DELETED && b != [] && b[0] == 0 then Some((Missing, b[1..]))
    else None
  }

  function DecodeOne(b: Bytes): Option<(Record, Bytes)> {
    match Cut(b)
    case None => None
    case Some((name, afterName)) =>
      match Cut(afterName)
      case None => None
      case Some((mode, afterMode)) =>
        match DecodeValue(mode, afterMode)
        case None => None
        case Some((kind, rest)) => Some((Record(name, kind), rest))
  }

  lemma DecodeOneShortens(b: Bytes)
    requires DecodeOne(b).Some?
    ensures |DecodeOne(b).value.1| < |b|
  {
    CutShortens(b);
    var afterName := Cut(b).value.1;
    CutShortens(afterName);
    var (mode, afterMode) := Cut(afterName).value;
    if mode == MODE_LINK { CutShortens(afterMode); }
  }

  function DecodeAll(b: Bytes): Option<seq<Record>>
    decreases |b|
  {
    if b == [] then Some([])
    else
      match DecodeOne(b)
      case None => None
      case Some((r, rest)) =>
        DecodeOneShortens(b);
        match DecodeAll(rest)
        case None => None
        case Some(rs) => Some([r] + rs)
  }

  lemma DecodeOneInverts(r: Record, rest: Bytes)
    requires WellFormed(r)
    ensures DecodeOne(Encode(r) + rest) == Some((r, rest))
  {
    var mode, value := Mode(r.kind), Value(r.kind);
    var tail := value + [0] + rest;
    assert Encode(r) + rest == r.name + [0] + (mode + [0] + tail);
    CutFindsTheField(r.name, mode + [0] + tail);
    CutFindsTheField(mode, tail);
    match r.kind
    case Symlink(target) => CutFindsTheField(target, rest);
    case File(_, digest) =>
      assert tail[..DIGEST_SIZE] == digest && tail[DIGEST_SIZE] == 0 && tail[DIGEST_SIZE + 1..] == rest;
    case Missing => assert tail[0] == 0 && tail[1..] == rest;
  }

  /** The hashed bytes decode, in one way only, into the records they came from. */
  lemma {:induction false} DecodeInverts(rs: seq<Record>)
    requires forall i :: 0 <= i < |rs| ==> WellFormed(rs[i])
    ensures Encodable(rs) && DecodeAll(EncodeAll(rs)) == Some(rs)
  {
    if rs != [] {
      DecodeOneInverts(rs[0], EncodeAll(rs[1..]));
      DecodeInverts(rs[1..]);
      assert [rs[0]] + rs[1..] == rs;
    }
  }

  // --- the order in which names are hashed ---

  predicate Less(a: Bytes, b: Bytes) {
    b != [] && (a == [] || a[0] < b[0] || (a[0] == b[0] && Less(a[1..], b[1..])))
  }

  lemma {:induction false} LessIsTotal(a: Bytes, b: Bytes)
    ensures Less(a, b) || a == b || Less(b, a)
  {
    if a != [] && b != [] && a[0] == b[0] {
      LessIsTotal(a[1..], b[1..]);
      assert a == [a[0]] + a[1..] && b == [b[0]] + b[1..];
    }
  }

  lemma {:induction false} LessIsTransitive(a: Bytes, b: Bytes, c: Bytes)
    requires Less(a, b) && Less(b, c)
    ensures Less(a, c)
  {
    if a != [] && a[0] == b[0] == c[0] {
      LessIsTransitive(a[1..], b[1..], c[1..]);
    }
  }

  lemma {:induction false} LessIsIrreflexive(a: Bytes)
    ensures !Less(a, a)
  {
    if a != [] { LessIsIrreflexive(a[1..]); }
  }

  predicate Ascending(s: seq<Bytes>) {
    forall i, j :: 0 <= i < j < |s| ==> Less(s[i], s[j])
  }

  function Insert(x: Bytes, s: seq<Bytes>): seq<Bytes> {
    if s == [] || Less(x, s[0]) then [x] + s
    else if x == s[0] then s
    else [s[0]] + Insert(x, s[1..])
  }

  lemma {:induction false} InsertKeepsOrder(x: Bytes, s: seq<Bytes>)
    requires Ascending(s)
    ensures Ascending(Insert(x, s))
    ensures forall y :: y in Insert(x, s) <==> y == x || y in s
  {
    if s == [] || x == s[0] {
    } else if Less(x, s[0]) {
      forall j | 0 <= j < |s| ensures Less(x, s[j]) {
        if j > 0 { LessIsTransitive(x, s[0], s[j]); }
      }
    } else {
      LessIsTotal(x, s[0]);
      InsertKeepsOrder(x, s[1..]);
      var t := Insert(x, s[1..]);
      forall j | 0 <= j < |t| ensures Less(s[0], t[j]) {
        assert t[j] == x || t[j] in s[1..];
      }
      assert s == [s[0]] + s[1..];
    }
  }

  /** `sorted(set(names) - {b''})`. */
  function SortedNames(listing: seq<Bytes>): seq<Bytes> {
    if listing == [] then []
    else if listing[0] == [] then SortedNames(listing[1..])
    else Insert(listing[0], SortedNames(listing[1..]))
  }

  lemma {:induction false} SortedNamesAreSorted(listing: seq<Bytes>)
    ensures Ascending(SortedNames(listing))
    ensures forall y :: y in SortedNames(listing) <==> y in listing && y != []
  {
    if listing != [] {
      SortedNamesAreSorted(listing[1..]);
      if listing[0] != [] { InsertKeepsOrder(listing[0], SortedNames(listing[1..])); }
      assert listing == [listing[0]] + listing[1..];
    }
  }

  /** An ascending sequence is determined by its elements. */
  lemma {:induction false} AscendingIsCanonical(s: seq<Bytes>, t: seq<Bytes>)
    requires Ascending(s) && Ascending(t) && forall y :: y in s <==> y in t
    ensures s == t
  {
    assert s != [] ==> s[0] in t;
    assert t != [] ==> t[0] in s;
    if s != [] && t != [] {
      FirstIsLeast(s, t);
      forall y ensures y in s[1..] <==> y in t[1..] {
        TailHasTheRest(s, y);
        TailHasTheRest(t, y);
      }
      AscendingIsCanonical(s[1..], t[1..]);
      assert s == [s[0]] + s[1..] && t == [t[0]] + t[1..];
    }
  }

  lemma FirstIsLeast(s: seq<Bytes>, t: seq<Bytes>)
    requires Ascending(s) && Ascending(t) && s != [] && t != [] && forall y :: y in s <==> y in t
    ensures s[0] == t[0]
  {
    assert s[0] in t && t[0] in s;
    if s[0] != t[0] {
      LessIsTransitive(s[0], t[0], s[0]);
      LessIsIrreflexive(s[0]);
    }
  }

  lemma TailHasTheRest(s: seq<Bytes>, y: Bytes)
    requires Ascending(s) && s != []
    ensures y in s[1..] <==> y in s && y != s[0]
  {
    LessIsIrreflexive(s[0]);
    assert s == [s[0]] + s[1..];
  }

  // --- the whole tree ---

  function KindOf(disk: map<Bytes, Kind>, name: Bytes): Kind {
    if name in disk then disk[name] else Missing
  }

  function Records(disk: map<Bytes, Kind>, names: seq<Bytes>): (rs: seq<Record>)
    ensures |rs| == |names|
    ensures forall i :: 0 <= i < |names| ==> rs[i] == Record(names[i], KindOf(disk, names[i]))
  {
    if names == [] then [] else [Record(names[0], KindOf(disk, names[0]))] + Records(disk, names[1..])
  }

  predicate Hashable(listing: seq<Bytes>, disk: map<Bytes, Kind>) {
    forall n :: n in listing ==> !KindOf(disk, n).Other?
  }

  /** What git and the file system can deliver: names and link targets without NUL,
      digests of 32 bytes. */
  predicate Plausible(listing: seq<Bytes>, disk: map<Bytes, Kind>) {
    && (forall n :: n in listing ==> NulFree(n))
    && (forall n :: n in disk ==>
          match disk[n]
          case Symlink(target) => NulFree(target)
          case File(_, digest) => |digest| == DIGEST_SIZE
          case _ => true)
  }

  lemma {:induction false} EncodeAllSnoc(rs: seq<Record>, r: Record)
    requires Encodable(rs) && !r.kind.Other?
    ensures Encodable(rs + [r]) && EncodeAll(rs + [r]) == EncodeAll(rs) + Encode(r)
  {
    if rs == [] {
      assert rs + [r] == [r];
    } else {
      assert (rs + [r])[1..] == rs[1..] + [r];
      EncodeAllSnoc(rs[1..], r);
    }
  }

  function TreeStream(listing: seq<Bytes>, disk: map<Bytes, Kind>): Bytes
    requires Hashable(SortedNames(listing), disk)
  {
    NamesEncodable(disk, SortedNames(listing));
    EncodeAll(Records(disk, SortedNames(listing)))
  }

  lemma NamesEncodable(disk: map<Bytes, Kind>, names: seq<Bytes>)
    requires Hashable(names, disk)
    ensures Encodable(Records(disk, names))
  {
  }

  /** The stream holds the records of the first `i` names. */
  predicate StreamedUpTo(stream: Bytes, disk: map<Bytes, Kind>, names: seq<Bytes>, i: nat)
    requires i <= |names|
  {
    && Hashable(names[..i], disk)
    && Encodable(Records(disk, names[..i])) && stream == EncodeAll(Records(disk, names[..i]))
  }

  lemma RecordsSnoc(disk: map<Bytes, Kind>, names: seq<Bytes>, name: Bytes)
    ensures Records(disk, names + [name]) == Records(disk, names) + [Record(name, KindOf(disk, name))]
  {
  }

  lemma NextRecord(stream: Bytes, disk: map<Bytes, Kind>, names: seq<Bytes>, i: nat)
    requires i < |names| && StreamedUpTo(stream, disk, names, i) && !KindOf(disk, names[i]).Other?
    ensures StreamedUpTo(stream + Encode(Record(names[i], KindOf(disk, names[i]))), disk, names, i + 1)
  {
    assert names[..i + 1] == names[..i] + [names[i]];
    RecordsSnoc(disk, names[..i], names[i]);
    EncodeAllSnoc(Records(disk, names[..i]), Record(names[i], KindOf(disk, names[i])));
  }

  /** The bytes fed to the hash: the records of the sorted names, or an error as soon as
      a name is neither file, link nor missing. */
  method TreeBytes(listing: seq<Bytes>, disk: map<Bytes, Kind>) returns (r: Result<Bytes>)
    ensures r.Ok? <==> Hashable(SortedNames(listing), disk)
    ensures r.Ok? ==> r.value == TreeStream(listing, disk)
  {
    var names := SortedNames(listing);
    var stream: Bytes := [];
    for i := 0 to |names|
      invariant StreamedUpTo(stream, disk, names, i)
    {
      var kind := KindOf(disk, names[i]);
      if kind.Other? {
        assert names[i] in names;
        return Err("Unsupported cache input");
      }
      NextRecord(stream, disk, names, i);
      stream := stream + Encode(Record(names[i], kind));
    }
    assert names[..|names|] == names;
    r := Ok(stream);
  }

  lemma PlausibleRecords(listing: seq<Bytes>, disk: map<Bytes, Kind>)
    requires Plausible(listing, disk) && Hashable(SortedNames(listing), disk)
    ensures Encodable(Records(disk, SortedNames(listing)))
    ensures DecodeAll(TreeStream(listing, disk)) == Some(Records(disk, SortedNames(listing)))
  {
    SortedNamesAreSorted(listing);
    var names := SortedNames(listing);
    var rs := Records(disk, names);
    forall i | 0 <= i < |rs| ensures WellFormed(rs[i]) {
      assert names[i] in names;
    }
    DecodeInverts(rs);
  }

  /** Two trees feed the same bytes to the hash exactly when they list the same names,
      in whatever order and however often, and hold the same thing under each. */
  lemma SameBytesSameTree(l: seq<Bytes>, d: map<Bytes, Kind>, l': seq<Bytes>, d': map<Bytes, Kind>)
    requires Plausible(l, d) && Plausible(l', d')
    requires Hashable(SortedNames(l), d) && Hashable(SortedNames(l'), d')
    ensures TreeStream(l, d) == TreeStream(l', d') <==>
      && (forall n :: n != [] ==> (n in l <==> n in l'))
      && (forall n :: n in l && n != [] ==> KindOf(d, n) == KindOf(d', n))
  {
    SortedNamesAreSorted(l);
    SortedNamesAreSorted(l');
    var s, s' := SortedNames(l), SortedNames(l');
    var rs, rs' := Records(d, s), Records(d', s');
    if TreeStream(l, d) == TreeStream(l', d') {
      PlausibleRecords(l, d);
      PlausibleRecords(l', d');
      assert rs == rs';
      forall i | 0 <= i < |s| ensures s[i] == s'[i] && KindOf(d, s[i]) == KindOf(d', s[i]) {
        assert rs[i] == rs'[i];
      }
      assert s == s';
    }
    if (forall n :: n != [] ==> (n in l <==> n in l')) && (forall n :: n in l && n != [] ==> KindOf(d, n) == KindOf(d', n)) {
      AscendingIsCanonical(s, s');
      assert rs == rs';
    }
  }

  // --- the cache key text ---

  const NUL: char := 0 as char

  /** The text hashed for a cache key, in the order the key specification gives. */
  function KeyText(bindings: string, versions: string, core: string, scripts: string, host: string, tools: string): string {
    Text.Join([bindings, versions, core, scripts, host, tools], NUL)
  }

  /** The six fields can be read back from the key text exactly when none of them
      contains the separator. */
  lemma KeyFieldsRecoverable(bindings: string, versions: string, core: string, scripts: string, host: string, tools: string)
    ensures Text.Split(KeyText(bindings, versions, core, scripts, host, tools), NUL)
         == [bindings, versions, core, scripts, host, tools]
       <==> NUL !in bindings && NUL !in versions && NUL !in core && NUL !in scripts && NUL !in host && NUL !in tools
  {
    var fields := [bindings, versions, core, scripts, host, tools];
    Text.JoinedFieldsRecoverable(fields, NUL);
    assert fields[0] in fields && fields[1] in fields && fields[2] in fields
        && fields[3] in fields && fields[4] in fields && fields[5] in fields;
  }

  /** A separator inside the last two fields makes two different keys hash the same text. */
  lemma SeparatorInAFieldCollides(b: string, v: string, c: string, s: string, x: string, y: string, z: string)
    ensures KeyText(b, v, c, s, x + [NUL] + y, z) == KeyText(b, v, c, s, x, y + [NUL] + z)
  {
    Text.SeparatorInsideAFieldIsAmbiguous(x, y, z, NUL);
    var left, right := [b, v, c, s, x + [NUL] + y, z], [b, v, c, s, x, y + [NUL] + z];
    assert left[1..][1..][1..][1..] == [x + [NUL] + y, z] && right[1..][1..][1..][1..] == [x, y + [NUL] + z];
    assert Text.Join(left[1..][1..][1..], NUL) == Text.Join(right[1..][1..][1..], NUL);
    assert Text.Join(left[1..][1..], NUL) == Text.Join(right[1..][1..], NUL);
    assert Text.Join(left[1..], NUL) == Text.Join(right[1..], NUL);
  }
}
