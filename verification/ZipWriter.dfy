/** An archive writer, field by field, and the fact that the preflight accepts what it writes. */
module ZipWriter {
  import opened Options
  import opened Ordering
  import opened ZipPreflight

  // -- The writer -------------------------------------------------------------------------

  function Le16(n: nat): (r: seq<byte>)
    ensures |r| == 2
  {
    [(n % 256) as byte, (n / 256 % 256) as byte]
  }

  function Le32(n: nat): (r: seq<byte>)
    ensures |r| == 4
  {
    [(n % 256) as byte, (n / 256 % 256) as byte, (n / 65536 % 256) as byte, (n / 16_777_216 % 256) as byte]
  }

  /** One member. `data` is stored as it is; `marked` says whether its data descriptor carries a signature. */
  datatype Member = Member(
    name: seq<byte>, extra: seq<byte>, version: nat, flags: nat, compression: nat, time: nat, crc: nat, data: seq<byte>,
    size: nat, marked: bool, madeBy: nat, internal: nat, external: nat, centralExtra: seq<byte>, comment: seq<byte>)

  /** Bit 3 of the flags: checksum and sizes follow the data. */
  predicate Streamed(m: Member) { m.flags / 8 % 2 == 1 }

  /** Section 4.3.7 of PKWARE APPNOTE.TXT, up to the name. */
  function LocalHeader(m: Member): (r: seq<byte>)
    ensures |r| == 30
  {
    [0x50, 0x4B, 3, 4] + Le16(m.version) + Le16(m.flags) + Le16(m.compression) + Le32(m.time)
    + Le32(if Streamed(m) then 0 else m.crc) + Le32(if Streamed(m) then 0 else |m.data|)
    + Le32(if Streamed(m) then 0 else m.size) + Le16(|m.name|) + Le16(|m.extra|)
  }

  function Sizes(m: Member): (r: seq<byte>)
    ensures |r| == 12
  {
    Le32(m.crc) + Le32(|m.data|) + Le32(m.size)
  }

  /** Section 4.3.9. */
  function Descriptor(m: Member): (r: seq<byte>)
    ensures |r| == (if Streamed(m) then if m.marked then 16 else 12 else 0)
  {
    if !Streamed(m) then []
    else (if m.marked then [0x50, 0x4B, 7, 8] else []) + Sizes(m)
  }

  function Local(m: Member): seq<byte> { LocalHeader(m) + (m.name + m.extra + m.data) + Descriptor(m) }

  /** Section 4.3.12, up to the name. */
  function CentralHeader(m: Member, offset: nat): (r: seq<byte>)
    ensures |r| == 46
  {
    [0x50, 0x4B, 1, 2] + Le16(m.madeBy) + Le16(m.version) + Le16(m.flags) + Le16(m.compression) + Le32(m.time)
    + Le32(m.crc) + Le32(|m.data|) + Le32(m.size) + Le16(|m.name|) + Le16(|m.centralExtra|) + Le16(|m.comment|)
    + Le16(0) + Le16(m.internal) + Le32(m.external) + Le32(offset)
  }

  function Central(m: Member, offset: nat): seq<byte> {
    CentralHeader(m, offset) + (m.name + m.centralExtra + m.comment)
  }

  /** Section 4.3.16, up to the comment. */
  function EndRecord(count: nat, size: nat, offset: nat, length: nat): (r: seq<byte>)
    ensures |r| == 22
  {
    [0x50, 0x4B, 5, 6] + Le16(0) + Le16(0) + Le16(count) + Le16(count) + Le32(size) + Le32(offset) + Le16(length)
  }

  function Locals(ms: seq<Member>): seq<byte> { if ms == [] then [] else Local(ms[0]) + Locals(ms[1..]) }

  /** The members with the offsets at which they start. */
  function Placed(ms: seq<Member>, at: nat): seq<(Member, nat)> {
    if ms == [] then [] else [(ms[0], at)] + Placed(ms[1..], at + |Local(ms[0])|)
  }

  function Directory(ps: seq<(Member, nat)>): seq<byte> {
    if ps == [] then [] else Central(ps[0].0, ps[0].1) + Directory(ps[1..])
  }

  /** The members in order, then the directory, which may list them in another order, then the end record. */
  function Archive(ms: seq<Member>, ps: seq<(Member, nat)>, comment: seq<byte>): seq<byte> {
    Locals(ms) + Directory(ps) + (EndRecord(|ps|, |Directory(ps)|, |Locals(ms)|, |comment|) + comment)
  }

  // -- Reading fields back ----------------------------------------------------------------

  /** `s` stands in `b` at `i`. */
  ghost predicate Stands(b: seq<byte>, i: nat, s: seq<byte>) { i + |s| <= |b| && b[i..i + |s|] == s }

  lemma StandsParts(b: seq<byte>, i: nat, s: seq<byte>, t: seq<byte>)
    requires Stands(b, i, s + t)
    ensures Stands(b, i, s) && Stands(b, i + |s|, t)
  {
    assert b[i..i + |s| + |t|][..|s|] == s && b[i..i + |s| + |t|][|s|..] == t;
  }

  lemma Field16(b: seq<byte>, i: nat, s: seq<byte>, k: nat, n: nat)
    requires Stands(b, i, s) && k + 2 <= |s| && s[k..k + 2] == Le16(n) && n < 0x1_0000
    ensures U16(b, i + k) == n
  {
    var t, w := b[i..i + |s|], s[k..k + 2];
    assert w[0] == t[k] == b[i + k] && w[1] == t[k + 1] == b[i + k + 1];
  }

  lemma Field32(b: seq<byte>, i: nat, s: seq<byte>, k: nat, n: nat)
    requires Stands(b, i, s) && k + 4 <= |s| && s[k..k + 4] == Le32(n) && n < 0x1_0000_0000
    ensures U32(b, i + k) == n
  {
    var t, w := b[i..i + |s|], s[k..k + 4];
    assert w[0] == t[k] == b[i + k] && w[1] == t[k + 1] == b[i + k + 1];
    assert w[2] == t[k + 2] == b[i + k + 2] && w[3] == t[k + 3] == b[i + k + 3];
    Digits(n);
  }

  lemma Digits(n: nat)
    requires n < 0x1_0000_0000
    ensures n % 256 + 256 * (n / 256 % 256) + 65536 * (n / 65536 % 256 + 256 * (n / 16_777_216 % 256)) == n
  {
  }

  lemma Signature(b: seq<byte>, i: nat, s: seq<byte>, x: byte, y: byte)
    requires Stands(b, i, s) && |s| >= 4 && s[..4] == [0x50, 0x4B, x, y]
    ensures SignatureAt(b, i, x, y)
  {
    var t := b[i..i + |s|];
    assert forall k :: 0 <= k < 4 ==> b[i + k] == t[k] == s[..4][k];
  }

  /** Every number fits its field. */
  predicate Fits(m: Member) {
    && m.version < 0x1_0000 && m.flags < 0x1_0000 && m.compression < 0x1_0000
    && m.crc < 0x1_0000_0000 && |m.data| < 0x1_0000_0000 && m.size < 0x1_0000_0000
    && |m.name| < 0x1_0000 && |m.extra| < 0x1_0000 && |m.centralExtra| < 0x1_0000 && |m.comment| < 0x1_0000
  }

  function RecordOf(m: Member, offset: nat): Record {
    Record(offset, m.flags, m.compression, m.crc, |m.data|, m.size)
  }

  lemma CentralReads(b: seq<byte>, i: nat, m: Member, offset: nat)
    requires Stands(b, i, CentralHeader(m, offset)) && Fits(m) && offset < 0x1_0000_0000
    ensures SignatureAt(b, i, 1, 2)
    ensures EntryAt(b, i) == Entry(i, i + |Central(m, offset)|, m.version, 0, RecordOf(m, offset))
  {
    hide U16, U32, Le16, Le32, SignatureAt, Stands;
    var s := CentralHeader(m, offset);
    Signature(b, i, s, 1, 2);
    Field16(b, i, s, 6, m.version);
    Field16(b, i, s, 8, m.flags);
    Field16(b, i, s, 10, m.compression);
    Field32(b, i, s, 16, m.crc);
    Field32(b, i, s, 20, |m.data|);
    Field32(b, i, s, 24, m.size);
    Field16(b, i, s, 28, |m.name|);
    Field16(b, i, s, 30, |m.centralExtra|);
    Field16(b, i, s, 32, |m.comment|);
    Field16(b, i, s, 34, 0);
    Field32(b, i, s, 42, offset);
  }

  lemma LocalHeaderReads(b: seq<byte>, i: nat, m: Member)
    requires Stands(b, i, LocalHeader(m)) && Fits(m)
    ensures SignatureAt(b, i, 3, 4) && U16(b, i + 4) == m.version && U16(b, i + 6) == m.flags
    ensures U16(b, i + 8) == m.compression && U16(b, i + 26) == |m.name| && U16(b, i + 28) == |m.extra|
    ensures !Streamed(m) ==> SizesAt(b, i + 14, RecordOf(m, i))
  {
    hide U16, U32, Le16, Le32, SignatureAt, Stands;
    var s := LocalHeader(m);
    assert i + 30 <= |b| by { StandsWithin(b, i, s); }
    Signature(b, i, s, 3, 4);
    Field16(b, i, s, 4, m.version);
    Field16(b, i, s, 6, m.flags);
    Field16(b, i, s, 8, m.compression);
    Field16(b, i, s, 26, |m.name|);
    Field16(b, i, s, 28, |m.extra|);
    if !Streamed(m) {
      Field32(b, i, s, 14, m.crc);
      Field32(b, i, s, 18, |m.data|);
      Field32(b, i, s, 22, m.size);
    }
  }

  lemma StandsWithin(b: seq<byte>, i: nat, s: seq<byte>)
    requires Stands(b, i, s)
    ensures i + |s| <= |b|
  {
  }

  const DESCRIPTOR_SIGNATURE: nat := 0x0807_4B50

  /** An unsigned data descriptor must not begin like a signature. */
  predicate Unambiguous(m: Member) { Streamed(m) && !m.marked ==> m.crc != DESCRIPTOR_SIGNATURE }

  lemma SizesRead(b: seq<byte>, i: nat, m: Member)
    requires Stands(b, i, Sizes(m)) && Fits(m)
    ensures i + 12 <= |b| && SizesAt(b, i, RecordOf(m, 0)) && U32(b, i) == m.crc
  {
    hide U32, Le32, Stands;
    StandsWithin(b, i, Sizes(m));
    Field32(b, i, Sizes(m), 0, m.crc);
    Field32(b, i, Sizes(m), 4, |m.data|);
    Field32(b, i, Sizes(m), 8, m.size);
  }

  lemma DescriptorReads(b: seq<byte>, i: nat, m: Member)
    requires Stands(b, i, Descriptor(m)) && Streamed(m) && Fits(m) && Unambiguous(m)
    ensures SignatureAt(b, i, 7, 8) <==> m.marked
    ensures var at := if m.marked then i + 4 else i;
            SizesAt(b, at, RecordOf(m, 0)) && at + 12 == i + |Descriptor(m)| <= |b|
  {
    hide U32, Stands, SizesAt, SignatureAt, Sizes;
    var mark: seq<byte> := [0x50, 0x4B, 7, 8];
    if m.marked {
      assert Descriptor(m) == mark + Sizes(m);
      StandsParts(b, i, mark, Sizes(m));
      SizesRead(b, i + 4, m);
      Signature(b, i, mark, 7, 8);
    } else {
      assert Descriptor(m) == Sizes(m);
      SizesRead(b, i, m);
      if SignatureAt(b, i, 7, 8) {
        SignatureIsNumber(b, i);
        assert false;
      }
    }
  }

  lemma SignatureIsNumber(b: seq<byte>, i: nat)
    requires SignatureAt(b, i, 7, 8)
    ensures U32(b, i) == DESCRIPTOR_SIGNATURE
  {
  }

  lemma LocalSplits(b: seq<byte>, i: nat, m: Member)
    requires Stands(b, i, Local(m))
    ensures Stands(b, i, LocalHeader(m))
    ensures Stands(b, i + 30 + |m.name| + |m.extra| + |m.data|, Descriptor(m))
    ensures |Local(m)| == 30 + |m.name| + |m.extra| + |m.data| + |Descriptor(m)|
  {
    hide LocalHeader, Descriptor;
    var body := m.name + m.extra + m.data;
    StandsParts(b, i, LocalHeader(m) + body, Descriptor(m));
    StandsParts(b, i, LocalHeader(m), body);
  }

  lemma SizesAnywhere(b: seq<byte>, at: nat, m: Member, i: nat)
    requires SizesAt(b, at, RecordOf(m, 0))
    ensures SizesAt(b, at, RecordOf(m, i))
  {
  }

  /** The local record of a written member ends where the member ends. */
  lemma LocalReads(b: seq<byte>, dir: nat, i: nat, m: Member)
    requires Stands(b, i, Local(m)) && i + |Local(m)| <= dir <= |b| && Fits(m) && Unambiguous(m) && m.version < 45
    ensures LocalEnd(b, dir, RecordOf(m, i)) == Some(i + |Local(m)|)
  {
    hide U16, U32, SignatureAt, Stands, LocalHeader, Descriptor, Local, SizesAt, Fits, Unambiguous;
    LocalSplits(b, i, m);
    LocalHeaderReads(b, i, m);
    if Streamed(m) {
      var data := i + 30 + |m.name| + |m.extra| + |m.data|;
      DescriptorReads(b, data, m);
      SizesAnywhere(b, if m.marked then data + 4 else data, m, i);
    }
  }

  // -- The directory ----------------------------------------------------------------------

  predicate Placeable(p: (Member, nat)) { Fits(p.0) && p.1 < 0x1_0000_0000 }

  function EntryOf(p: (Member, nat), at: nat): Entry {
    Entry(at, at + |Central(p.0, p.1)|, p.0.version, 0, RecordOf(p.0, p.1))
  }

  function EntriesOf(ps: seq<(Member, nat)>, at: nat): seq<Entry> {
    if ps == [] then [] else [EntryOf(ps[0], at)] + EntriesOf(ps[1..], at + |Central(ps[0].0, ps[0].1)|)
  }

  lemma CentralParts(b: seq<byte>, i: nat, p: (Member, nat), rest: seq<byte>)
    requires Stands(b, i, Central(p.0, p.1) + rest) && Placeable(p)
    ensures Stands(b, i + |Central(p.0, p.1)|, rest) && |Central(p.0, p.1)| >= ENTRY_SIZE
    ensures i + |Central(p.0, p.1)| + |rest| <= |b| && SignatureAt(b, i, 1, 2) && EntryAt(b, i) == EntryOf(p, i)
  {
    var m, offset := p.0, p.1;
    StandsParts(b, i, Central(m, offset), rest);
    StandsParts(b, i, CentralHeader(m, offset), m.name + m.centralExtra + m.comment);
    hide EntryAt, SignatureAt, CentralHeader;
    CentralReads(b, i, m, offset);
  }

  /** The central records that stand between `lo` and `hi` are read back one by one. */
  lemma {:induction false} DirectoryReads(b: seq<byte>, lo: nat, hi: nat, ps: seq<(Member, nat)>)
    requires Stands(b, lo, Directory(ps)) && hi == lo + |Directory(ps)| && forall k :: 0 <= k < |ps| ==>
               Placeable(ps[k])
    ensures hi <= |b| && Entries(b, lo, hi) == Some(EntriesOf(ps, lo))
    decreases |ps|
  {
    hide Stands, SignatureAt, EntryAt, Central, EntryOf, Placeable;
    StandsWithin(b, lo, Directory(ps));
    if ps != [] {
      CentralParts(b, lo, ps[0], Directory(ps[1..]));
      DirectoryReads(b, EntryOf(ps[0], lo).next, hi, ps[1..]) by { NextIsAfter(ps[0], lo); }
      NextIsAfter(ps[0], lo);
    }
  }

  lemma NextIsAfter(p: (Member, nat), at: nat)
    ensures EntryOf(p, at).next == at + |Central(p.0, p.1)|
  {
  }

  lemma {:induction false} EntriesOfAt(ps: seq<(Member, nat)>, at: nat)
    ensures |EntriesOf(ps, at)| == |ps|
    ensures forall k :: 0 <= k < |ps| ==>
              && EntriesOf(ps, at)[k].record == RecordOf(ps[k].0, ps[k].1)
              && EntriesOf(ps, at)[k].version == ps[k].0.version && EntriesOf(ps, at)[k].disk == 0
  {
    if ps != [] { EntriesOfAt(ps[1..], at + |Central(ps[0].0, ps[0].1)|); }
  }

  // -- The local records ------------------------------------------------------------------

  function RecordsOf(ps: seq<(Member, nat)>): (rs: seq<Record>)
    ensures |rs| == |ps|
  {
    seq(|ps|, k requires 0 <= k < |ps| => RecordOf(ps[k].0, ps[k].1))
  }

  /** The local record of the member can be read back. */
  predicate Acceptable(m: Member) { Fits(m) && Unambiguous(m) && m.version < 45 }

  lemma LocalParts(b: seq<byte>, dir: nat, i: nat, m: Member, rest: seq<byte>)
    requires Stands(b, i, Local(m) + rest) && dir == i + |Local(m) + rest| <= |b| && Acceptable(m)
    ensures Stands(b, i + |Local(m)|, rest) && LocalEnd(b, dir, RecordOf(m, i)) == Some(i + |Local(m)|)
  {
    StandsParts(b, i, Local(m), rest);
    hide LocalEnd;
    LocalReads(b, dir, i, m);
  }

  lemma {:induction false} LocalsRead(b: seq<byte>, dir: nat, at: nat, ms: seq<Member>)
    requires Stands(b, at, Locals(ms)) && dir == at + |Locals(ms)| <= |b| && forall k :: 0 <= k < |ms| ==>
               Acceptable(ms[k])
    ensures LocalsTile(b, dir, RecordsOf(Placed(ms, at)), at)
    decreases |ms|
  {
    hide LocalEnd, Stands, Local, Acceptable;
    if ms != [] {
      var m, next, ps := ms[0], at + |Local(ms[0])|, Placed(ms, at);
      LocalParts(b, dir, at, m, Locals(ms[1..]));
      LocalsRead(b, dir, next, ms[1..]);
      assert ps == [(m, at)] + Placed(ms[1..], next);
      RecordsCons((m, at), Placed(ms[1..], next));
    }
  }

  lemma RecordsCons(p: (Member, nat), ps: seq<(Member, nat)>)
    ensures RecordsOf([p] + ps) == [RecordOf(p.0, p.1)] + RecordsOf(ps)
  {
  }

  lemma {:induction false} PlacedAscends(ms: seq<Member>, at: nat)
    ensures |Placed(ms, at)| == |ms| && (forall k :: 0 <= k < |ms| ==> Placed(ms, at)[k].0 == ms[k])
    ensures forall k :: 0 <= k < |ms| ==> at <= Placed(ms, at)[k].1 <= at + |Locals(ms)|
    ensures forall j, k :: 0 <= j < k < |ms| ==> Placed(ms, at)[j].1 < Placed(ms, at)[k].1
  {
    if ms != [] {
      var rest := at + |Local(ms[0])|;
      PlacedAscends(ms[1..], rest);
      hide Local;
      assert |Local(ms[0])| > 0 by { LocalNotEmpty(ms[0]); }
      assert Placed(ms, at) == [(ms[0], at)] + Placed(ms[1..], rest);
    }
  }

  lemma LocalNotEmpty(m: Member)
    ensures |Local(m)| > 0
  {
  }

  // -- The order of the directory does not matter -----------------------------------------

  /** The directory lists every placed member once, in any order. */
  ghost predicate Lists(ms: seq<Member>, ps: seq<(Member, nat)>) {
    Distinct(ps) && forall p :: p in ps <==> p in Placed(ms, 0)
  }

  lemma ListsAll(ms: seq<Member>, ps: seq<(Member, nat)>)
    requires Lists(ms, ps)
    ensures |ps| == |ms| && (forall k :: 0 <= k < |ps| ==> ps[k].0 in ms && ps[k].1 <= |Locals(ms)|)
  {
    var qs := Placed(ms, 0);
    PlacedAscends(ms, 0);
    hide Placed, Locals;
    assert Distinct(qs);
    DistinctSize(ps);
    DistinctSize(qs);
    assert Elements(ps) == Elements(qs);
    forall k | 0 <= k < |ps| ensures ps[k].0 in ms && ps[k].1 <= |Locals(ms)| {
      assert ps[k] in qs;
      var j :| 0 <= j < |qs| && qs[j] == ps[k];
    }
  }

  /** A member's offset tells it from all others. */
  lemma SameOffset(ms: seq<Member>, p: (Member, nat), q: (Member, nat))
    requires p in Placed(ms, 0) && q in Placed(ms, 0) && p.1 == q.1
    ensures p == q
  {
    var ps := Placed(ms, 0);
    PlacedAscends(ms, 0);
    var j :| 0 <= j < |ps| && ps[j] == p;
    var k :| 0 <= k < |ps| && ps[k] == q;
    hide Placed, Locals;
    assert j == k;
  }

  lemma RecordsDistinct(ms: seq<Member>, ps: seq<(Member, nat)>)
    requires Distinct(ps) && forall p :: p in ps ==> p in Placed(ms, 0)
    ensures Distinct(RecordsOf(ps))
  {
    var rs := RecordsOf(ps);
    forall j, k | 0 <= j < k < |rs| ensures rs[j] != rs[k] {
      assert ps[j] in ps && ps[k] in ps;
      if rs[j] == rs[k] { SameOffset(ms, ps[j], ps[k]); }
    }
  }

  lemma SameRecords(ps: seq<(Member, nat)>, qs: seq<(Member, nat)>)
    requires forall p :: p in ps ==> p in qs
    ensures forall r :: r in RecordsOf(ps) ==> r in RecordsOf(qs)
  {
    forall r | r in RecordsOf(ps) ensures r in RecordsOf(qs) {
      var k :| 0 <= k < |ps| && RecordsOf(ps)[k] == r;
      assert ps[k] in ps;
      var j :| 0 <= j < |qs| && qs[j] == ps[k];
      assert RecordsOf(qs)[j] == r;
    }
  }

  lemma RecordsAscend(ms: seq<Member>)
    ensures Ascending(RecordLeq, RecordsOf(Placed(ms, 0))) && Distinct(Placed(ms, 0))
  {
    var ps := Placed(ms, 0);
    PlacedAscends(ms, 0);
    hide Placed, Locals;
    forall j, k | 0 <= j < k < |ps| ensures RecordLeq(RecordsOf(ps)[j], RecordsOf(ps)[k]) {
      var x, y := Key(RecordsOf(ps)[j]), Key(RecordsOf(ps)[k]);
      assert x[0] == ps[j].1 && y[0] == ps[k].1;
    }
  }

  /** Sorting the listed records gives them in the order of the members. */
  lemma SortedRecords(ms: seq<Member>, ps: seq<(Member, nat)>)
    requires Lists(ms, ps)
    ensures Sort(RecordLeq, RecordsOf(ps)) == RecordsOf(Placed(ms, 0))
  {
    var qs := Placed(ms, 0);
    RecordsAscend(ms);
    RecordsDistinct(ms, ps);
    RecordsDistinct(ms, qs);
    SameRecords(ps, qs);
    SameRecords(qs, ps);
    RecordOrder();
    hide RecordLeq, Placed, RecordsOf, TotalOrder, Distinct, Ascending, Sort;
    SortKeeps(RecordLeq, RecordsOf(ps));
    SortedUnique(RecordLeq, Sort(RecordLeq, RecordsOf(ps)), RecordsOf(qs));
  }

  // -- Acceptance -------------------------------------------------------------------------

  /** Not ZIP64 nor encrypted, stored or deflated, and within the member limit. */
  predicate MemberPermitted(limits: Limits, m: Member) {
    && m.version < 45 && m.flags % 2 == 0 && m.flags / 64 % 2 == 0
    && (m.compression == 0 || m.compression == 8) && m.size <= limits.memberBytes
  }

  /** The archive can be written at all: the directory lists the members, and every number fits its field. */
  ghost predicate Encodable(ms: seq<Member>, ps: seq<(Member, nat)>, comment: seq<byte>) {
    && (forall k :: 0 <= k < |ms| ==> Fits(ms[k]) && Unambiguous(ms[k])) && Lists(ms, ps)
    && |ms| < 0x1_0000 && |Directory(ps)| < 0x1_0000_0000 && |Locals(ms)| < 0x1_0000_0000 && |comment| < 0x1_0000
  }

  /** Supported members within the limits, in numbers that do not stand for ZIP64. */
  predicate Permitted(limits: Limits, ms: seq<Member>, ps: seq<(Member, nat)>) {
    && (forall k :: 0 <= k < |ms| ==> MemberPermitted(limits, ms[k]))
    && |ms| != 65535 && |ms| <= limits.archiveEntries
    && |Directory(ps)| != 0xFFFF_FFFF && |Directory(ps)| <= limits.centralDirectoryBytes
  }

  /** No end signature stands after the end record's own. */
  predicate NoLaterEnd(b: seq<byte>, e: nat) { forall i :: e < i && i + 4 <= |b| ==> !SignatureAt(b, i, 5, 6) }

  lemma EndReads(b: seq<byte>, e: nat, count: nat, size: nat, offset: nat, length: nat)
    requires Stands(b, e, EndRecord(count, size, offset, length))
    requires count < 0x1_0000 && size < 0x1_0000_0000 && offset < 0x1_0000_0000 && length < 0x1_0000
    ensures e + 22 <= |b| && SignatureAt(b, e, 5, 6) && U16(b, e + 4) == 0 && U16(b, e + 6) == 0
    ensures U16(b, e + 8) == count && U16(b, e + 10) == count && U32(b, e + 12) == size && U32(b, e + 16) == offset
    ensures U16(b, e + 20) == length
  {
    hide U16, U32, Le16, Le32, SignatureAt, Stands;
    var s := EndRecord(count, size, offset, length);
    StandsWithin(b, e, s);
    Signature(b, e, s, 5, 6);
    Field16(b, e, s, 4, 0);
    Field16(b, e, s, 6, 0);
    Field16(b, e, s, 8, count);
    Field16(b, e, s, 10, count);
    Field32(b, e, s, 12, size);
    Field32(b, e, s, 16, offset);
    Field16(b, e, s, 20, length);
  }

  /** The parts of an archive stand one after the other. */
  lemma ArchiveParts(ms: seq<Member>, ps: seq<(Member, nat)>, comment: seq<byte>)
    ensures var b, n, k := Archive(ms, ps, comment), |Locals(ms)|, |Directory(ps)|;
            && Stands(b, 0, Locals(ms)) && Stands(b, n, Directory(ps))
            && Stands(b, n + k, EndRecord(|ps|, k, n, |comment|)) && |b| == n + k + 22 + |comment|
  {
    hide Locals, Directory, EndRecord;
    var b := Archive(ms, ps, comment);
    var tail := EndRecord(|ps|, |Directory(ps)|, |Locals(ms)|, |comment|) + comment;
    assert Stands(b, 0, b);
    StandsParts(b, 0, Locals(ms) + Directory(ps), tail);
    StandsParts(b, 0, Locals(ms), Directory(ps));
    StandsParts(b, |Locals(ms)| + |Directory(ps)|, EndRecord(|ps|, |Directory(ps)|, |Locals(ms)|, |comment|), comment);
  }

  lemma MembersPlaceable(ms: seq<Member>, ps: seq<(Member, nat)>)
    requires (forall k :: 0 <= k < |ms| ==> Fits(ms[k])) && Lists(ms, ps) && |Locals(ms)| < 0x1_0000_0000
    ensures |ps| == |ms| && forall k :: 0 <= k < |ps| ==> Placeable(ps[k])
  {
    ListsAll(ms, ps);
    hide Locals, Fits, Lists;
    forall k | 0 <= k < |ps| ensures Placeable(ps[k]) {
      var j :| 0 <= j < |ms| && ms[j] == ps[k].0;
    }
  }

  lemma MemberIsSupported(limits: Limits, p: (Member, nat), e: Entry)
    requires e.record == RecordOf(p.0, p.1) && e.version == p.0.version && e.disk == 0
    ensures Supported(limits, e) <==> MemberPermitted(limits, p.0)
  {
  }

  /** The written directory reads back in the order it was listed, and is supported exactly when its members are. */
  lemma DirectoryIsOk(limits: Limits, b: seq<byte>, dir: nat, e: nat, ps: seq<(Member, nat)>)
    requires Stands(b, dir, Directory(ps)) && e == dir + |Directory(ps)| <= |b|
    requires forall k :: 0 <= k < |ps| ==> Placeable(ps[k])
    ensures Entries(b, dir, e) == Some(EntriesOf(ps, dir)) && Records(EntriesOf(ps, dir)) == RecordsOf(ps)
    ensures |EntriesOf(ps, dir)| == |ps|
    ensures (forall k :: 0 <= k < |ps| ==> Supported(limits, EntriesOf(ps, dir)[k]))
            <==> forall k :: 0 <= k < |ps| ==> MemberPermitted(limits, ps[k].0)
  {
    hide Stands, Directory, Entries, EntriesOf, Placeable, MemberPermitted, Supported;
    var es := EntriesOf(ps, dir);
    DirectoryReads(b, dir, e, ps);
    EntriesOfAt(ps, dir);
    assert Records(es) == RecordsOf(ps);
    forall k | 0 <= k < |ps| ensures Supported(limits, es[k]) <==> MemberPermitted(limits, ps[k].0) {
      MemberIsSupported(limits, ps[k], es[k]);
    }
  }

  lemma MembersListed(limits: Limits, ms: seq<Member>, ps: seq<(Member, nat)>)
    requires Lists(ms, ps)
    ensures (forall k :: 0 <= k < |ps| ==> MemberPermitted(limits, ps[k].0))
            <==> forall k :: 0 <= k < |ms| ==> MemberPermitted(limits, ms[k])
  {
    ListsAll(ms, ps);
    PlacedAscends(ms, 0);
    hide MemberPermitted, Placed, Locals;
    if forall k :: 0 <= k < |ps| ==> MemberPermitted(limits, ps[k].0) {
      forall k | 0 <= k < |ms| ensures MemberPermitted(limits, ms[k]) {
        assert Placed(ms, 0)[k] in ps;
        var j :| 0 <= j < |ps| && ps[j] == Placed(ms, 0)[k];
      }
    }
    forall k | 0 <= k < |ps| ensures exists j :: 0 <= j < |ms| && ms[j] == ps[k].0 { }
  }

  lemma LocalsAreOk(limits: Limits, b: seq<byte>, ms: seq<Member>, ps: seq<(Member, nat)>)
    requires Stands(b, 0, Locals(ms)) && |Locals(ms)| <= |b| && Lists(ms, ps)
    requires forall k :: 0 <= k < |ms| ==> Fits(ms[k]) && Unambiguous(ms[k]) && MemberPermitted(limits, ms[k])
    ensures LocalsTile(b, |Locals(ms)|, Sort(RecordLeq, RecordsOf(ps)), 0)
  {
    hide Stands, Locals, LocalsTile, Sort, RecordLeq, RecordsOf, Placed, Lists, Fits, Unambiguous;
    LocalsRead(b, |Locals(ms)|, 0, ms);
    SortedRecords(ms, ps);
  }

  /** At its own end record a written archive has the structure the preflight demands exactly when it is permitted. */
  lemma WrittenIsOk(limits: Limits, ms: seq<Member>, ps: seq<(Member, nat)>, comment: seq<byte>)
    requires Encodable(ms, ps, comment)
    ensures var b, e := Archive(ms, ps, comment), |Locals(ms)| + |Directory(ps)|;
            && |b| == e + 22 + |comment| && U16(b, e + 10) == |ms|
            && (ZipOk(limits, b, e) <==> Permitted(limits, ms, ps)) && (IsEnd(b, e) <==> NoLaterEnd(b, e))
  {
    hide Archive, Locals, Directory, Stands, RecordLeq, Sort, Entries, LocalsTile, U16, U32, SignatureAt, EndRecord;
    hide Lists, MemberPermitted, Placeable, Supported, Records, RecordsOf, EntriesOf, Fits, Unambiguous;
    var b, dir, e := Archive(ms, ps, comment), |Locals(ms)|, |Locals(ms)| + |Directory(ps)|;
    ArchiveParts(ms, ps, comment);
    MembersPlaceable(ms, ps);
    EndReads(b, e, |ps|, |Directory(ps)|, dir, |comment|);
    DirectoryIsOk(limits, b, dir, e, ps);
    MembersListed(limits, ms, ps);
    if Permitted(limits, ms, ps) { LocalsAreOk(limits, b, ms, ps); }
  }

  /** The preflight of a written archive. If no end signature follows the end record's own, it accepts, with the number
      of members, exactly when the archive is permitted; without an archive comment it accepts no other. */
  method PreflightWritten(ms: seq<Member>, ps: seq<(Member, nat)>, comment: seq<byte>, budget: ScanBudget)
    returns (r: Outcome)
    requires Encodable(ms, ps, comment) && 2 * |ms| <= budget.remaining
    modifies budget
    ensures NoLaterEnd(Archive(ms, ps, comment), |Locals(ms)| + |Directory(ps)|) ==>
              if Permitted(budget.limits, ms, ps) then r == Accepted(|ms|) else r.Refused?
    ensures comment == [] && r.Accepted? ==> NoLaterEnd(Archive(ms, ps, comment), |Locals(ms)| + |Directory(ps)|)
  {
    hide Archive, Locals, Directory, IsEnd, NoLaterEnd, U16, U32, SignatureAt, Encodable, Entries, LocalsTile;
    hide Records, Sort, Permitted;
    var b := Archive(ms, ps, comment);
    ghost var e := |Locals(ms)| + |Directory(ps)|;
    WrittenIsOk(budget.limits, ms, ps, comment);
    r := Preflight(b, budget);
    if r.Accepted? {
      ghost var x :| 0 <= x && IsEnd(b, x) && ZipOk(budget.limits, b, x) && r.count == U16(b, x + 10);
      AcceptedEnd(budget.limits, b, x, e);
    }
  }

  lemma AcceptedEnd(limits: Limits, b: seq<byte>, x: nat, e: nat)
    requires IsEnd(b, x) && ZipOk(limits, b, x) && e + END_SIZE <= |b|
    ensures IsEnd(b, e) ==> x == e
    ensures |b| == e + END_SIZE ==> NoLaterEnd(b, e)
  {
    OneEnd(b, x);
    hide U16, U32, Entries, LocalsTile;
  }

  lemma NumberIsSignature(b: seq<byte>, i: nat)
    requires i + 4 <= |b| && U32(b, i) == 0x0605_4B50
    ensures SignatureAt(b, i, 5, 6)
  {
    assert b[i] as nat == 0x0605_4B50 % 256 && b[i + 1] as nat == 0x0605_4B50 / 256 % 256;
    assert b[i + 2] as nat == 0x0605_4B50 / 65536 % 256 && b[i + 3] as nat == 0x0605_4B50 / 16_777_216;
  }

  /** So an archive without a comment is refused when its directory starts at the offset that reads as the signature. */
  lemma OffsetReadsAsEnd(ms: seq<Member>, ps: seq<(Member, nat)>, comment: seq<byte>)
    requires |Locals(ms)| == 0x0605_4B50
    ensures !NoLaterEnd(Archive(ms, ps, comment), |Locals(ms)| + |Directory(ps)|)
  {
    hide Archive, Locals, Directory, Le16, Le32, Stands, U32, SignatureAt;
    ArchiveParts(ms, ps, comment);
    var b, e := Archive(ms, ps, comment), |Locals(ms)| + |Directory(ps)|;
    Field32(b, e, EndRecord(|ps|, |Directory(ps)|, |Locals(ms)|, |comment|), 16, 0x0605_4B50);
    NumberIsSignature(b, e + 16);
  }
}
