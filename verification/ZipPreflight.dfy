/** The structural ZIP preflight: end record, central directory walk and local record walk. */
module ZipPreflight {
  import opened Options
  import opened Ordering

  newtype byte = x: int | 0 <= x < 256

  datatype Limits = Limits(archiveEntries: nat, centralDirectoryBytes: nat, memberBytes: nat)

  /** The shared scan budget; `remaining` is the number of checkpoints before its deadline passes. */
  class ScanBudget {
    const limits: Limits
    var remaining: nat

    constructor (limits: Limits, remaining: nat)
      ensures this.limits == limits && this.remaining == remaining
    {
      this.limits, this.remaining := limits, remaining;
    }

    method Checkpoint() returns (ok: bool)
      modifies this
      ensures ok <==> old(remaining) > 0
      ensures ok ==> remaining == old(remaining) - 1
      ensures !ok ==> remaining == 0
    {
      if remaining == 0 { return false; }
      remaining := remaining - 1;
      return true;
    }
  }

  // -- Little-endian fields ---------------------------------------------------------------

  const END_SIZE: nat := 22
  const ENTRY_SIZE: nat := 46
  const LOCAL_SIZE: nat := 30
  const END_SEARCH: nat := 65557

  function U16(b: seq<byte>, i: nat): nat
    requires i + 2 <= |b|
  {
    b[i] as nat + 256 * b[i + 1] as nat
  }

  function U32(b: seq<byte>, i: nat): nat
    requires i + 4 <= |b|
  {
    U16(b, i) + 65536 * U16(b, i + 2)
  }

  /** The signature `PK` followed by `x` and `y` stands at `i`. */
  predicate SignatureAt(b: seq<byte>, i: nat, x: byte, y: byte) {
    i + 4 <= |b| && b[i] == 0x50 && b[i + 1] == 0x4B && b[i + 2] == x && b[i + 3] == y
  }

  predicate Bit(flags: nat, mask: nat)
    requires mask > 0
  {
    (flags / mask) % 2 == 1
  }

  /** The last end signature in the search range, section 4.3.16 of PKWARE APPNOTE.TXT. */
  predicate IsEnd(b: seq<byte>, e: nat) {
    && SignatureAt(b, e, 5, 6) && |b| <= e + END_SEARCH
    && forall i :: e < i && i + 4 <= |b| ==> !SignatureAt(b, i, 5, 6)
  }

  method FindEnd(b: seq<byte>) returns (e: Option<nat>)
    ensures e.Some? ==> IsEnd(b, e.value)
    ensures e.None? ==> forall i :: 0 <= i ==> !IsEnd(b, i)
  {
    if |b| < 4 { return None; }
    var start: int := if |b| > END_SEARCH then |b| - END_SEARCH else 0;
    var i: int := |b| - 4;
    while i >= start
      invariant -1 <= i <= |b| - 4
      invariant forall j :: i < j && j + 4 <= |b| && 0 <= j ==> !SignatureAt(b, j, 5, 6)
    {
      if SignatureAt(b, i, 5, 6) { return Some(i); }
      i := i - 1;
    }
    return None;
  }

  // -- Central directory ------------------------------------------------------------------

  datatype Record = Record(offset: nat, flags: nat, compression: nat, crc: nat, compressed: nat, size: nat)

  /** A central record from `at` up to `next`, section 4.3.12. */
  datatype Entry = Entry(at: nat, next: nat, version: nat, disk: nat, record: Record)

  function EntryAt(b: seq<byte>, i: nat): Entry
    requires i + ENTRY_SIZE <= |b|
  {
    Entry(i, i + ENTRY_SIZE + U16(b, i + 28) + U16(b, i + 30) + U16(b, i + 32), U16(b, i + 6), U16(b, i + 34),
          Record(U32(b, i + 42), U16(b, i + 8), U16(b, i + 10), U32(b, i + 16), U32(b, i + 20), U32(b, i + 24)))
  }

  /** The records that follow one another from `lo` exactly to `hi`, if they do. */
  function Entries(b: seq<byte>, lo: nat, hi: nat): Option<seq<Entry>>
    requires hi <= |b|
    decreases hi - lo
  {
    if lo >= hi then (if lo == hi then Some([]) else None)
    else if lo + ENTRY_SIZE > hi || !SignatureAt(b, lo, 1, 2) then None
    else
      var e := EntryAt(b, lo);
      match Entries(b, e.next, hi)
      case None => None
      case Some(rest) => Some([e] + rest)
  }

  /** Neither ZIP64 nor encrypted nor split, and stored or deflated. */
  predicate Readable(e: Entry) {
    && e.version < 45 && !Bit(e.record.flags, 1) && !Bit(e.record.flags, 64)
    && (e.record.compression == 0 || e.record.compression == 8) && e.disk == 0
  }

  predicate Supported(limits: Limits, e: Entry) { Readable(e) && e.record.size <= limits.memberBytes }

  function Records(es: seq<Entry>): (rs: seq<Record>)
    ensures |rs| == |es|
  {
    seq(|es|, i requires 0 <= i < |es| => es[i].record)
  }

  // -- Local records ----------------------------------------------------------------------

  /** Three words at `i` are the checksum and the two sizes of the record. */
  predicate SizesAt(b: seq<byte>, i: nat, r: Record) {
    i + 12 <= |b| && U32(b, i) == r.crc && U32(b, i + 4) == r.compressed && U32(b, i + 8) == r.size
  }

  /** Where the local record of `r` ends, if the local header and the data descriptor match it, sections 4.3.7 and
      4.3.9. */
  function LocalEnd(b: seq<byte>, dir: nat, r: Record): Option<nat>
    requires dir <= |b|
  {
    if r.offset + LOCAL_SIZE > dir || !SignatureAt(b, r.offset, 3, 4) || U16(b, r.offset + 6) != r.flags
       || U16(b, r.offset + 8) != r.compression || U16(b, r.offset + 4) >= 45 then None
    else
      var data := r.offset + LOCAL_SIZE + U16(b, r.offset + 26) + U16(b, r.offset + 28) + r.compressed;
      if Bit(r.flags, 8) then
        var descriptor := if SignatureAt(b, data, 7, 8) then data + 4 else data;
        if SizesAt(b, descriptor, r) && descriptor + 12 <= dir then Some(descriptor + 12) else None
      else if SizesAt(b, r.offset + 14, r) && data <= dir then Some(data) else None
  }

  /** The local records, in this order, follow one another from `lo` exactly to the directory. */
  predicate LocalsTile(b: seq<byte>, dir: nat, rs: seq<Record>, lo: nat)
    requires dir <= |b|
  {
    if rs == [] then lo == dir
    else
      && rs[0].offset == lo && LocalEnd(b, dir, rs[0]).Some?
      && LocalsTile(b, dir, rs[1..], LocalEnd(b, dir, rs[0]).value)
  }

  // -- Order of records -------------------------------------------------------------------

  function Key(r: Record): seq<int> { [r.offset, r.flags, r.compression, r.crc, r.compressed, r.size] }

  predicate RecordLeq(a: Record, b: Record) { Lex(IntLeq, Key(a), Key(b)) }

  lemma RecordOrder()
    ensures TotalOrder(RecordLeq)
  {
    assert TotalOrder(IntLeq);
    forall a, b ensures RecordLeq(a, b) || RecordLeq(b, a) { LexTotal(IntLeq, Key(a), Key(b)); }
    forall a, b | RecordLeq(a, b) && RecordLeq(b, a) ensures a == b {
      LexAntisymmetric(IntLeq, Key(a), Key(b));
      assert Key(a)[0] == Key(b)[0] && Key(a)[1] == Key(b)[1] && Key(a)[2] == Key(b)[2]
             && Key(a)[3] == Key(b)[3] && Key(a)[4] == Key(b)[4] && Key(a)[5] == Key(b)[5];
    }
    forall a, b, c | RecordLeq(a, b) && RecordLeq(b, c) ensures RecordLeq(a, c) {
      LexTransitive(IntLeq, Key(a), Key(b), Key(c));
    }
  }

  // -- The accepted structure -------------------------------------------------------------

  /** The end record at `e` is plain and reaches the last byte, and the directory it names ends at it. */
  predicate EndOk(limits: Limits, b: seq<byte>, e: nat) {
    && e + END_SIZE <= |b|
    && U16(b, e + 4) == 0 && U16(b, e + 6) == 0 && U16(b, e + 8) == U16(b, e + 10)
    && U16(b, e + 10) != 65535 && U32(b, e + 12) != 0xFFFF_FFFF
    && U16(b, e + 10) <= limits.archiveEntries && U32(b, e + 12) <= limits.centralDirectoryBytes
    && e + END_SIZE + U16(b, e + 20) == |b| && U32(b, e + 16) + U32(b, e + 12) == e
  }

  /** The whole structure that the preflight demands, given the end record at `e`. */
  predicate ZipOk(limits: Limits, b: seq<byte>, e: nat) {
    && EndOk(limits, b, e)
    && var dir := U32(b, e + 16);
       && Entries(b, dir, e).Some?
       && var es := Entries(b, dir, e).value;
          && |es| == U16(b, e + 10) && (forall i :: 0 <= i < |es| ==> Supported(limits, es[i]))
          && LocalsTile(b, dir, Sort(RecordLeq, Records(es)), 0)
  }

  datatype Outcome = Accepted(count: nat) | Refused(code: string)

  /** `_preflight_zip`. With time left for two checkpoints per entry, it accepts exactly the structure above. */
  method Preflight(b: seq<byte>, budget: ScanBudget) returns (r: Outcome)
    modifies budget
    ensures r.Accepted? ==> exists e :: 0 <= e && IsEnd(b, e) && ZipOk(budget.limits, b, e) && r.count == U16(b, e + 10)
    ensures (exists e ::
               0 <= e && IsEnd(b, e) && ZipOk(budget.limits, b, e) && 2 * U16(b, e + 10) <= old(budget.remaining))
            ==> r.Accepted?
  {
    hide U16, U32, EntryAt, LocalsTile, SignatureAt, Records;
    var found := FindEnd(b);
    if found.None? { return Refused("scan_archive_invalid"); }
    var end := found.value;
    OneEnd(b, end);
    if end + END_SIZE > |b| { return Refused("scan_archive_invalid"); }
    var count, size, dir := U16(b, end + 10), U32(b, end + 12), U32(b, end + 16);
    if U16(b, end + 4) != 0 || U16(b, end + 6) != 0 || U16(b, end + 8) != count || count == 65535
       || size == 0xFFFF_FFFF {
      return Refused("scan_archive_unsupported");
    }
    if count > budget.limits.archiveEntries || size > budget.limits.centralDirectoryBytes {
      return Refused("scan_archive_limit");
    }
    if end + END_SIZE + U16(b, end + 20) != |b| || dir + size != end { return Refused("scan_archive_invalid"); }
    assert EndOk(budget.limits, b, end);
    var es, code := WalkDirectory(b, dir, end, count, budget);
    if es.None? { return Refused(code); }
    assert Entries(b, dir, end) == es;
    code := WalkLocals(b, dir, Records(es.value), budget);
    if code != "" { return Refused(code); }
    return Accepted(count);
  }

  lemma OneEnd(b: seq<byte>, e: nat)
    requires IsEnd(b, e)
    ensures forall i :: 0 <= i && IsEnd(b, i) ==> i == e
  {
    forall i | 0 <= i && IsEnd(b, i) ensures i == e {
      assert SignatureAt(b, i, 5, 6) && SignatureAt(b, e, 5, 6);
    }
  }

  /** The directory holds exactly `count` supported records and nothing else. */
  predicate DirectoryOk(limits: Limits, b: seq<byte>, dir: nat, end: nat, count: nat)
    requires end <= |b|
  {
    && Entries(b, dir, end).Some? && |Entries(b, dir, end).value| == count
    && (forall i :: 0 <= i < count ==> Supported(limits, Entries(b, dir, end).value[i]))
  }

  /** The records still ahead of the cursor complete those already seen. */
  ghost predicate Resumes(b: seq<byte>, dir: nat, end: nat, seen: seq<Entry>, cursor: nat)
    requires end <= |b|
  {
    Entries(b, dir, end) == match Entries(b, cursor, end)
                            case None => None
                            case Some(rest) => Some(seen + rest)
  }

  lemma ResumesNext(b: seq<byte>, dir: nat, end: nat, seen: seq<Entry>, cursor: nat)
    requires cursor < end <= |b| && cursor + ENTRY_SIZE <= end && SignatureAt(b, cursor, 1, 2)
    requires Resumes(b, dir, end, seen, cursor)
    ensures Resumes(b, dir, end, seen + [EntryAt(b, cursor)], EntryAt(b, cursor).next)
    ensures Entries(b, dir, end).Some? ==>
              |seen| < |Entries(b, dir, end).value| && Entries(b, dir, end).value[|seen|] == EntryAt(b, cursor)
  {
    var e := EntryAt(b, cursor);
    match Entries(b, e.next, end)
    case None =>
    case Some(rest) => assert seen + ([e] + rest) == (seen + [e]) + rest;
  }

  /** The first loop of the preflight. */
  method WalkDirectory(b: seq<byte>, dir: nat, end: nat, count: nat, budget: ScanBudget)
    returns (found: Option<seq<Entry>>, code: string)
    requires dir <= end <= |b| && count <= budget.limits.archiveEntries
    modifies budget
    ensures found.Some? ==> DirectoryOk(budget.limits, b, dir, end, count) && found == Entries(b, dir, end)
                            && budget.remaining + count == old(budget.remaining)
    ensures DirectoryOk(budget.limits, b, dir, end, count) && count <= old(budget.remaining) ==> found.Some?
  {
    hide U16, U32, EntryAt, SignatureAt, Entries, Supported;
    var cursor, es: seq<Entry> := dir, [];
    EntriesStart(b, dir, end);
    while cursor < end
      invariant Resumes(b, dir, end, es, cursor)
      invariant |es| <= budget.limits.archiveEntries && budget.remaining + |es| == old(budget.remaining)
      invariant forall i :: 0 <= i < |es| ==> Supported(budget.limits, es[i])
      invariant Entries(b, dir, end).Some? ==> es <= Entries(b, dir, end).value
      decreases end - cursor
    {
      EntriesMore(b, cursor, end);
      var timely := budget.Checkpoint();
      if !timely { return None, "scan_timeout"; }
      if cursor + ENTRY_SIZE > end || !SignatureAt(b, cursor, 1, 2) { return None, "scan_archive_invalid"; }
      ResumesNext(b, dir, end, es, cursor);
      var e := EntryAt(b, cursor);
      EntryAdvances(b, cursor);
      if |es| + 1 > budget.limits.archiveEntries { return None, "scan_archive_limit"; }
      if !Supported(budget.limits, e) {
        assert !DirectoryOk(budget.limits, b, dir, end, count);
        return None, if Readable(e) then "scan_member_limit" else "scan_archive_unsupported";
      }
      es, cursor := es + [e], e.next;
    }
    EntriesMore(b, cursor, end);
    if cursor != end || |es| != count { return None, "scan_archive_invalid"; }
    assert es + [] == es;
    return Some(es), "";
  }

  lemma EntriesStart(b: seq<byte>, dir: nat, end: nat)
    requires end <= |b|
    ensures Resumes(b, dir, end, [], dir)
  {
    match Entries(b, dir, end)
    case None =>
    case Some(rest) => assert [] + rest == rest;
  }

  lemma EntryAdvances(b: seq<byte>, i: nat)
    requires i + ENTRY_SIZE <= |b|
    ensures EntryAt(b, i).next >= i + ENTRY_SIZE
  {
  }

  /** Before the end there is a record or none at all. */
  lemma EntriesMore(b: seq<byte>, cursor: nat, end: nat)
    requires end <= |b|
    ensures cursor < end && (cursor + ENTRY_SIZE > end || !SignatureAt(b, cursor, 1, 2)) ==>
              Entries(b, cursor, end).None?
    ensures cursor < end && Entries(b, cursor, end).Some? ==> Entries(b, cursor, end).value != []
    ensures cursor == end ==> Entries(b, cursor, end) == Some([])
    ensures cursor > end ==> Entries(b, cursor, end).None?
  {
  }

  /** `_validate_zip_local_records`; an empty code means accepted. */
  method WalkLocals(b: seq<byte>, dir: nat, records: seq<Record>, budget: ScanBudget) returns (code: string)
    requires dir <= |b|
    modifies budget
    ensures code == "" ==> LocalsTile(b, dir, Sort(RecordLeq, records), 0)
    ensures LocalsTile(b, dir, Sort(RecordLeq, records), 0) && |records| <= old(budget.remaining) ==> code == ""
  {
    hide U16, U32, LocalEnd, RecordLeq, Sort;
    var sorted := Sort(RecordLeq, records);
    SortLength(records);
    var cursor := 0;
    for i := 0 to |sorted|
      invariant LocalsTile(b, dir, sorted, 0) <==> LocalsTile(b, dir, sorted[i..], cursor)
      invariant budget.remaining + i == old(budget.remaining)
    {
      assert sorted[i..][0] == sorted[i] && sorted[i..][1..] == sorted[i + 1..];
      var timely := budget.Checkpoint();
      if !timely { return "scan_timeout"; }
      var stop := LocalEnd(b, dir, sorted[i]);
      if sorted[i].offset != cursor || stop.None? { return "scan_archive_invalid"; }
      cursor := stop.value;
    }
    if cursor != dir { return "scan_archive_invalid"; }
    return "";
  }

  lemma SortLength(records: seq<Record>)
    ensures |Sort(RecordLeq, records)| == |records|
  {
    RecordOrder();
    SortKeeps(RecordLeq, records);
  }

  // -- What acceptance means for the bytes ------------------------------------------------

  predicate InEntry(e: Entry, x: nat) { e.at <= x < e.next }

  predicate InLocal(b: seq<byte>, dir: nat, r: Record, x: nat)
    requires dir <= |b|
  {
    r.offset <= x && LocalEnd(b, dir, r).Some? && x < LocalEnd(b, dir, r).value
  }

  /** Central records tile their range: every byte lies in exactly one. */
  lemma {:induction false} EntryOwner(b: seq<byte>, lo: nat, hi: nat, x: nat) returns (i: nat)
    requires hi <= |b| && Entries(b, lo, hi).Some? && lo <= x < hi
    ensures var es := Entries(b, lo, hi).value;
            i < |es| && forall j :: 0 <= j < |es| ==> (InEntry(es[j], x) <==> j == i)
    decreases hi - lo
  {
    var e, es := EntryAt(b, lo), Entries(b, lo, hi).value;
    EntryAdvances(b, lo);
    EntriesAbove(b, e.next, hi);
    var rest := Entries(b, e.next, hi).value;
    assert es == [e] + rest;
    hide EntryAt, Entries;
    if x < e.next {
      i := 0;
    } else {
      var k := EntryOwner(b, e.next, hi, x);
      i := k + 1;
      assert forall j :: 0 < j < |es| ==> es[j] == rest[j - 1];
    }
  }

  lemma {:induction false} EntriesAbove(b: seq<byte>, lo: nat, hi: nat)
    requires hi <= |b| && Entries(b, lo, hi).Some?
    ensures lo <= hi
    ensures forall j :: 0 <= j < |Entries(b, lo, hi).value| ==>
              lo <= Entries(b, lo, hi).value[j].at < Entries(b, lo, hi).value[j].next <= hi
    decreases hi - lo
  {
    if lo < hi {
      var e, es := EntryAt(b, lo), Entries(b, lo, hi).value;
      EntryAdvances(b, lo);
      EntriesAbove(b, e.next, hi);
      var rest := Entries(b, e.next, hi).value;
      assert es == [e] + rest;
      hide EntryAt, Entries;
      assert forall j :: 0 < j < |es| ==> es[j] == rest[j - 1];
    }
  }

  /** Local records tile the range before the directory: every byte lies in exactly one. */
  lemma {:induction false} LocalOwner(b: seq<byte>, dir: nat, rs: seq<Record>, lo: nat, x: nat) returns (i: nat)
    requires dir <= |b| && LocalsTile(b, dir, rs, lo) && lo <= x < dir
    ensures i < |rs| && forall j :: 0 <= j < |rs| ==> (InLocal(b, dir, rs[j], x) <==> j == i)
    decreases |rs|
  {
    var stop := LocalEnd(b, dir, rs[0]).value;
    LocalsAbove(b, dir, rs[1..], stop);
    hide LocalEnd;
    assert forall j :: 0 < j < |rs| ==> rs[j] == rs[1..][j - 1];
    if x < stop {
      i := 0;
    } else {
      var k := LocalOwner(b, dir, rs[1..], stop, x);
      i := k + 1;
    }
  }

  lemma {:induction false} LocalsAbove(b: seq<byte>, dir: nat, rs: seq<Record>, lo: nat)
    requires dir <= |b| && LocalsTile(b, dir, rs, lo)
    ensures lo <= dir
    ensures forall j :: 0 <= j < |rs| ==>
              lo <= rs[j].offset && LocalEnd(b, dir, rs[j]).Some? && rs[j].offset < LocalEnd(b, dir, rs[j]).value <= dir
    decreases |rs|
  {
    if rs != [] {
      var stop := LocalEnd(b, dir, rs[0]).value;
      assert rs[0].offset < stop;
      LocalsAbove(b, dir, rs[1..], stop);
      hide LocalEnd;
      assert forall j :: 0 < j < |rs| ==> rs[j] == rs[1..][j - 1];
    }
  }

  /** Consecutive local records never repeat an offset. */
  lemma {:induction false} OffsetsAscend(b: seq<byte>, dir: nat, rs: seq<Record>, lo: nat)
    requires dir <= |b| && LocalsTile(b, dir, rs, lo)
    ensures forall i, j :: 0 <= i < j < |rs| ==>
              LocalEnd(b, dir, rs[i]).Some? && LocalEnd(b, dir, rs[i]).value <= rs[j].offset
    decreases |rs|
  {
    if rs != [] {
      var stop := LocalEnd(b, dir, rs[0]).value;
      LocalsAbove(b, dir, rs[1..], stop);
      OffsetsAscend(b, dir, rs[1..], stop);
      hide LocalEnd;
      assert forall j :: 0 < j < |rs| ==> rs[j] == rs[1..][j - 1];
    }
  }

  /** Every byte of an accepted archive lies in one region, and in one record of that region. */
  lemma EveryByteOnce(limits: Limits, b: seq<byte>, e: nat, x: nat) returns (i: nat)
    requires ZipOk(limits, b, e) && x < |b|
    ensures var dir := U32(b, e + 16); var es := Entries(b, dir, e).value; var rs := Sort(RecordLeq, Records(es));
            && dir <= e
            && (if x < dir then i < |rs| && forall j :: 0 <= j < |rs| ==> (InLocal(b, dir, rs[j], x) <==> j == i)
                else forall j :: 0 <= j < |rs| ==> !InLocal(b, dir, rs[j], x))
            && (if dir <= x < e then i < |es| && forall j :: 0 <= j < |es| ==> (InEntry(es[j], x) <==> j == i)
                else forall j :: 0 <= j < |es| ==> !InEntry(es[j], x))
            && |b| == e + END_SIZE + U16(b, e + 20)
  {
    hide LocalsTile, Entries, Records, RecordLeq, U16, LocalEnd;
    var dir := U32(b, e + 16);
    var rs := Sort(RecordLeq, Records(Entries(b, dir, e).value));
    LocalsAbove(b, dir, rs, 0);
    EntriesAbove(b, dir, e);
    if x < dir {
      i := LocalOwner(b, dir, rs, 0, x);
    } else if x < e {
      i := EntryOwner(b, dir, e, x);
    } else {
      i := 0;
    }
  }

  /** No two central entries of an accepted archive share local bytes. */
  lemma NoSharedLocals(limits: Limits, b: seq<byte>, e: nat, i: nat, j: nat)
    requires ZipOk(limits, b, e)
    requires var es := Entries(b, U32(b, e + 16), e).value; i < j < |es|
    ensures var dir := U32(b, e + 16); var es := Entries(b, dir, e).value;
            forall x :: 0 <= x ==> !(InLocal(b, dir, es[i].record, x) && InLocal(b, dir, es[j].record, x))
  {
    hide Entries, U32, LocalEnd, Supported;
    var dir := U32(b, e + 16);
    var es := Entries(b, dir, e).value;
    LocalsApart(b, dir, Records(es), i, j);
    assert Records(es)[i] == es[i].record && Records(es)[j] == es[j].record;
  }

  lemma LocalsApart(b: seq<byte>, dir: nat, rs: seq<Record>, i: nat, j: nat)
    requires dir <= |b| && LocalsTile(b, dir, Sort(RecordLeq, rs), 0) && i < j < |rs|
    ensures forall x :: 0 <= x ==> !(InLocal(b, dir, rs[i], x) && InLocal(b, dir, rs[j], x))
  {
    hide LocalEnd, RecordLeq, LocalsTile, Sort;
    var sorted := Sort(RecordLeq, rs);
    OffsetsAscend(b, dir, sorted, 0);
    LocalsAbove(b, dir, sorted, 0);
    assert forall k, l :: 0 <= k < l < |sorted| ==>
             sorted[k].offset < LocalEnd(b, dir, sorted[k]).value <= sorted[l].offset;
    assert Distinct(sorted);
    RecordOrder();
    SortKeeps(RecordLeq, rs);
    assert rs[i] in sorted && rs[j] in sorted && rs[i] != rs[j];
    hide Distinct, Ascending, TotalOrder;
    var k :| 0 <= k < |sorted| && sorted[k] == rs[i];
    var l :| 0 <= l < |sorted| && sorted[l] == rs[j];
    assert k < l || l < k;
  }
}
