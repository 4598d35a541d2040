/**
 * The save file as the sequence of twelve items Save writes to the object
 * stream, and what Load makes of such a sequence. The byte-level Java object
 * serialization format is not modelled: an item is one `int[][]`, one
 * `Color[]` or one `int`.
 */
module Persistence {
  import opened Shapes

  /** One item of the stream: an `int[][]` object, a `Color[]` object or an `int`. */
  datatype Record = IntTable(rows: seq<seq<int>>) | ColorTable(colors: seq<Color>) | IntValue(n: int)

  /** Where a load stopped: the stream ended before item `at`, or item `at` is
      not of the type and shape Load expects. */
  datatype LoadError = Truncated(at: nat) | Malformed(at: nat)

  datatype Result<T> = Ok(value: T) | Err(error: LoadError)

  const FIELDS: nat := 12

  /** Save's order: lines, ovals, rectangles, dabs; each as table, colours, count. */
  function Encode(s: Store): (rs: seq<Record>)
    ensures |rs| == FIELDS
  {
    [IntTable(s.lines.xy), ColorTable(s.lines.color), IntValue(s.lines.count),
     IntTable(s.ovals.xy), ColorTable(s.ovals.color), IntValue(s.ovals.count),
     IntTable(s.rects.xy), ColorTable(s.rects.color), IntValue(s.rects.count),
     IntTable(s.dabs.xy), ColorTable(s.dabs.color), IntValue(s.dabs.count)]
  }

  /** The table item k belongs to. */
  function ToolAt(k: nat): Tool
    requires k < FIELDS
  {
    if k < 3 then Line else if k < 6 then Oval else if k < 9 then Rectangle else Freehand
  }

  /** Item k is the table (0), the colours (1) or the count (2) of its block. */
  function Part(k: nat): nat
    requires k < FIELDS
  {
    if k < 3 then k else if k < 6 then k - 3 else if k < 9 then k - 6 else k - 9
  }

  /** Item k is what Load casts it to, with the shape the program allocates. */
  predicate Fits(r: Record, k: nat)
    requires k < FIELDS
    ensures Fits(r, k) ==> (r.IntTable? <==> Part(k) == 0) && (r.ColorTable? <==> Part(k) == 1) && (r.IntValue? <==> Part(k) == 2)
    ensures Fits(r, k) && r.IntTable? ==> |r.rows| == Capacity(ToolAt(k))
    ensures Fits(r, k) && r.ColorTable? ==> |r.colors| == Capacity(ToolAt(k))
  {
    var rows := Capacity(ToolAt(k));
    var cols := if ToolAt(k) == Freehand then DAB_FIELDS else CORNER_FIELDS;
    if Part(k) == 0 then r.IntTable? && |r.rows| == rows && forall i | 0 <= i < rows :: |r.rows[i]| == cols
    else if Part(k) == 1 then r.ColorTable? && |r.colors| == rows
    else r.IntValue?
  }

  /** Load's assignment of item k: the field it names takes the record's value. */
  function Install(s: Store, k: nat, r: Record): (s': Store)
    requires k < FIELDS && Fits(r, k)
    ensures forall u :: u != ToolAt(k) ==> TableOf(s', u) == TableOf(s, u)
    ensures WellShaped(s) ==> WellShaped(s')
  {
    var t := TableOf(s, ToolAt(k));
    var t' := if Part(k) == 0 then t.(xy := r.rows) else if Part(k) == 1 then t.(color := r.colors) else t.(count := r.n);
    WithTable(s, ToolAt(k), t')
  }

  /** Assigning item k changes item k of the save to the record, leaves the
      other eleven as they were and keeps the allocated shapes. */
  lemma InstallOneField(s: Store, k: nat, r: Record)
    requires k < FIELDS && Fits(r, k)
    ensures Encode(Install(s, k, r))[k] == r
    ensures forall j | 0 <= j < FIELDS && j != k :: Encode(Install(s, k, r))[j] == Encode(s)[j]
    ensures WellShaped(s) ==> WellShaped(Install(s, k, r))
  {
  }

  /** The first n items are all there and all fit. */
  predicate FitsUpTo(rs: seq<Record>, n: nat)
  {
    n <= FIELDS && n <= |rs| && forall k | 0 <= k < n :: Fits(rs[k], k)
  }

  function ReadableFrom(rs: seq<Record>, k: nat): (n: nat)
    requires FitsUpTo(rs, k)
    ensures k <= n && FitsUpTo(rs, n)
    ensures n < FIELDS ==> n == |rs| || !Fits(rs[n], n)
    decreases FIELDS - k
  {
    if k < FIELDS && k < |rs| && Fits(rs[k], k) then ReadableFrom(rs, k + 1) else k
  }

  /** How many items Load assigns before it stops: the items before the first
      one that is missing or does not fit, at most twelve. */
  function Readable(rs: seq<Record>): (n: nat)
    ensures FitsUpTo(rs, n)
    ensures n < FIELDS ==> n == |rs| || !Fits(rs[n], n)
  {
    ReadableFrom(rs, 0)
  }

  /** The store after assigning the first n items over `s`, one by one. */
  function Overlay(s: Store, rs: seq<Record>, n: nat): (r: Store)
    requires FitsUpTo(rs, n)
    ensures WellShaped(s) ==> WellShaped(r)
    ensures n <= 9 ==> r.dabs == s.dabs
    decreases n
  {
    if n == 0 then s else Install(Overlay(s, rs, n - 1), n - 1, rs[n - 1])
  }

  /** The error Load reports when it stops before item n. */
  function StopAt(rs: seq<Record>, n: nat): (e: LoadError)
    requires n <= |rs|
    ensures e.at == n
    ensures e.Truncated? <==> n == |rs|
  {
    if n == |rs| then Truncated(n) else Malformed(n)
  }

  /** Readable is the first position where reading stops. */
  lemma ReadableAt(rs: seq<Record>, k: nat)
    requires FitsUpTo(rs, k)
    requires k == FIELDS || k == |rs| || !Fits(rs[k], k)
    ensures Readable(rs) == k
  {
  }

  /** A whole store read from the stream, or where reading stopped. */
  function Decode(rs: seq<Record>): (r: Result<Store>)
    ensures r.Ok? <==> Readable(rs) == FIELDS
    ensures r.Ok? ==> WellShaped(r.value)
  {
    var n := Readable(rs);
    if n < FIELDS then Err(StopAt(rs, n))
    else
      assert forall k | 0 <= k < FIELDS :: Fits(rs[k], k);
      assert Fits(rs[0], 0) && Fits(rs[3], 3) && Fits(rs[6], 6) && Fits(rs[9], 9);
      Ok(Store(Table(rs[0].rows, rs[1].colors, rs[2].n),
               Table(rs[3].rows, rs[4].colors, rs[5].n),
               Table(rs[6].rows, rs[7].colors, rs[8].n),
               Table(rs[9].rows, rs[10].colors, rs[11].n)))
  }

  /** A stream that stops early reads as the error at the stopping point. */
  lemma DecodeStops(rs: seq<Record>)
    requires Readable(rs) < FIELDS
    ensures Decode(rs) == Err(StopAt(rs, Readable(rs)))
  {
  }

  // ---------------------------------------------------------------------------
  // Properties

  /** Every saved store reads back as itself. */
  lemma RoundTrip(s: Store)
    requires WellShaped(s)
    ensures Decode(Encode(s)) == Ok(s)
  {
    var rs := Encode(s);
    forall k | 0 <= k < FIELDS
      ensures Fits(rs[k], k)
    {
    }
    assert FitsUpTo(rs, FIELDS);
  }

  /** Whatever reads as a store is that store's save, followed by anything. */
  lemma DecodeInverse(rs: seq<Record>)
    requires Decode(rs).Ok?
    ensures Encode(Decode(rs).value) == rs[..FIELDS]
  {
    var s := Decode(rs).value;
    forall k | 0 <= k < FIELDS
      ensures Encode(s)[k] == rs[k]
    {
      assert Fits(rs[k], k);
    }
  }

  /** A save cut short reads as truncated at the cut. */
  lemma {:induction false} CutSaveIsTruncated(s: Store, k: nat)
    requires WellShaped(s) && k < FIELDS
    ensures Decode(Encode(s)[..k]) == Err(Truncated(k))
  {
    var rs := Encode(s)[..k];
    forall j | 0 <= j < k
      ensures Fits(rs[j], j)
    {
    }
    assert FitsUpTo(rs, k);
  }

  /** Load is not atomic: after assigning n items, items before n come from the
      stream and the rest are what the store held before. */
  lemma {:induction false} OverlayFields(s: Store, rs: seq<Record>, n: nat)
    requires FitsUpTo(rs, n)
    ensures forall k | 0 <= k < FIELDS :: Encode(Overlay(s, rs, n))[k] == if k < n then rs[k] else Encode(s)[k]
    ensures WellShaped(s) ==> WellShaped(Overlay(s, rs, n))
    decreases n
  {
    if n > 0 {
      OverlayFields(s, rs, n - 1);
      InstallOneField(Overlay(s, rs, n - 1), n - 1, rs[n - 1]);
    }
  }

  /** Two stores with the same save are the same store. */
  lemma EncodeInjective(s: Store, s': Store)
    requires Encode(s) == Encode(s')
    ensures s == s'
  {
    assert Encode(s)[0] == Encode(s')[0] && Encode(s)[1] == Encode(s')[1] && Encode(s)[2] == Encode(s')[2];
    assert Encode(s)[3] == Encode(s')[3] && Encode(s)[4] == Encode(s')[4] && Encode(s)[5] == Encode(s')[5];
    assert Encode(s)[6] == Encode(s')[6] && Encode(s)[7] == Encode(s')[7] && Encode(s)[8] == Encode(s')[8];
    assert Encode(s)[9] == Encode(s')[9] && Encode(s)[10] == Encode(s')[10] && Encode(s)[11] == Encode(s')[11];
  }

  /** A stream that reads completely replaces every saved field, whatever the
      store held before. */
  lemma FullLoadIsDecode(s: Store, rs: seq<Record>)
    requires Decode(rs).Ok?
    ensures Overlay(s, rs, FIELDS) == Decode(rs).value
  {
    OverlayFields(s, rs, FIELDS);
    DecodeInverse(rs);
    var o := Overlay(s, rs, FIELDS);
    assert Encode(o) == rs[..FIELDS] by {
      forall k | 0 <= k < FIELDS
        ensures Encode(o)[k] == rs[..FIELDS][k]
      {
      }
    }
    EncodeInjective(o, Decode(rs).value);
  }
}
