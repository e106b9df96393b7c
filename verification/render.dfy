/** The renderer: figures scaled by the selected unit, the key/value document
    that JSON and YAML output serialise, and the rows of the plain-text table. */
module Render {
  import opened Machine
  import opened Flags
  import opened Units
  import opened Sampler

  /** `b` raised to `e`, exactly. */
  function Pow(b: nat, e: nat): nat {
    if e == 0 then 1 else b * Pow(b, e - 1)
  }

  lemma {:induction false} PowPositive(b: nat, e: nat)
    requires b >= 1
    ensures Pow(b, e) >= 1
    ensures e > 0 ==> Pow(b, e) >= b
  {
    if e > 0 {
      PowPositive(b, e - 1);
    }
  }

  lemma {:induction false} PowMonotone(b: nat, e: nat, f: nat)
    requires b >= 1 && e <= f
    ensures Pow(b, e) <= Pow(b, f)
  {
    if e < f {
      PowMonotone(b, e, f - 1);
      PowPositive(b, f - 1);
    }
  }

  /** The divisor `base^exponent`. Every unit the selector produces gives an exact
      integer between 1 and 1024^6 = 2^60, so the float power and its conversion
      to `uint64` lose nothing, and no figure is ever divided by zero. */
  function Divisor(u: UnitSpec): (d: nat)
    requires ValidUnit(u)
    ensures 1 <= d < U64_MODULUS
    ensures d == 1 <==> u.exponent == 0
  {
    PowPositive(u.base, u.exponent);
    PowMonotone(u.base, u.exponent, 6);
    assert Pow(u.base, 6) < U64_MODULUS by {
      assert Pow(u.base, 2) == u.base * u.base;
      assert Pow(u.base, 3) == u.base * Pow(u.base, 2);
      assert Pow(u.base, 6) == Pow(u.base, 3) * Pow(u.base, 3) by {
        assert Pow(u.base, 4) == u.base * Pow(u.base, 3);
        assert Pow(u.base, 5) == u.base * Pow(u.base, 4);
      }
    }
    Pow(u.base, u.exponent)
  }

  /** Go's `x / d` on `uint64`: the quotient truncated toward zero. */
  function Scale(x: U64, d: nat): (q: U64)
    requires d >= 1
    ensures q * d <= x < q * d + d
    ensures d == 1 ==> q == x
  {
    x / d
  }

  /** The columns of the memory row, in table order; also the keys of the `memory` object. */
  const MemoryKeys: seq<string> := ["total", "used", "free", "active", "inactive", "wired", "available"]

  /** The columns of the swap and totals rows; also the keys of their objects. */
  const TripleKeys: seq<string> := ["total", "used", "free"]

  /** A leaf of the structured document: the unit descriptor, or one object of figures. */
  datatype Value = Text(text: string) | Figures(figures: map<string, nat>)

  type Document = map<string, Value>

  datatype Row = Row(heading: string, figures: seq<nat>)

  datatype Output = Json(doc: Document) | Yaml(doc: Document) | Table(header: seq<string>, rows: seq<Row>)

  /** `f` holds exactly the seven displayed memory keys, each the matching counter scaled by `d`. */
  predicate MemoryShown(f: map<string, nat>, m: Memory, d: nat)
    requires d >= 1
  {
    && f.Keys == {"total", "used", "free", "active", "inactive", "wired", "available"}
    && f["total"] == Scale(m.total, d)
    && f["used"] == Scale(m.used, d)
    && f["free"] == Scale(m.free, d)
    && f["active"] == Scale(m.active, d)
    && f["inactive"] == Scale(m.inactive, d)
    && f["wired"] == Scale(m.wired, d)
    && f["available"] == Scale(m.available, d)
  }

  /** `f` holds exactly total, used and free, each scaled by `d`. */
  predicate TripleShown(f: map<string, nat>, total: U64, used: U64, free: U64, d: nat)
    requires d >= 1
  {
    && f.Keys == {"total", "used", "free"}
    && f["total"] == Scale(total, d)
    && f["used"] == Scale(used, d)
    && f["free"] == Scale(free, d)
  }

  /** The scaled memory figures as the program keys them. */
  function MemoryOut(m: Memory, d: nat): (r: map<string, nat>)
    requires d >= 1
    ensures MemoryShown(r, m, d)
  {
    map[
      "available" := Scale(m.available, d),
      "free" := Scale(m.free, d),
      "used" := Scale(m.used, d),
      "total" := Scale(m.total, d),
      "active" := Scale(m.active, d),
      "inactive" := Scale(m.inactive, d),
      "wired" := Scale(m.wired, d)]
  }

  /** The scaled figures of a total/used/free triple (swap or combined totals). */
  function TripleOut(total: U64, used: U64, free: U64, d: nat): (r: map<string, nat>)
    requires d >= 1
    ensures TripleShown(r, total, used, free, d)
  {
    map["total" := Scale(total, d), "used" := Scale(used, d), "free" := Scale(free, d)]
  }

  /** The key/value document JSON and YAML output both serialise. */
  function StructuredDocument(showTotal: bool, memoryOut: map<string, nat>, swapOut: map<string, nat>,
                              totalsOut: map<string, nat>, descriptor: string): (doc: Document)
    ensures doc.Keys == {"descriptor", "memory", "swap"} + (if showTotal then {"total"} else {})
    ensures "total" in doc <==> showTotal
    ensures doc["descriptor"] == Text(descriptor)
    ensures doc["memory"] == Figures(memoryOut) && doc["swap"] == Figures(swapOut)
    ensures showTotal ==> doc["total"] == Figures(totalsOut)
  {
    var doc := map["descriptor" := Text(descriptor), "memory" := Figures(memoryOut), "swap" := Figures(swapOut)];
    if showTotal then doc["total" := Figures(totalsOut)] else doc
  }

  datatype Format = JsonFormat | YamlFormat | TextFormat

  /** JSON is checked first, then YAML; plain text otherwise. */
  function SelectFormat(opts: Options): (f: Format)
    ensures f == JsonFormat <==> opts.json
    ensures f == YamlFormat <==> !opts.json && opts.yaml
    ensures f == TextFormat <==> !opts.json && !opts.yaml
  {
    if opts.json then JsonFormat else if opts.yaml then YamlFormat else TextFormat
  }

  /** Everything the document says about one snapshot scaled by `d`. */
  predicate DocumentShows(doc: Document, snap: Snapshot, d: nat, prefix: string, showTotal: bool)
    requires d >= 1
  {
    var s := snap.swap;
    var t := snap.totals;
    && doc.Keys == {"descriptor", "memory", "swap"} + (if showTotal then {"total"} else {})
    && doc["descriptor"] == Text(prefix + "bytes")
    && doc["memory"].Figures? && MemoryShown(doc["memory"].figures, snap.memory, d)
    && doc["swap"].Figures? && TripleShown(doc["swap"].figures, s.total, s.used, s.free, d)
    && (showTotal ==> doc["total"].Figures? && TripleShown(doc["total"].figures, t.total, t.used, t.free, d))
  }

  /** Everything the plain-text table says about one snapshot scaled by `d`:
      the memory row follows the header's column order. */
  predicate TableShows(header: seq<string>, rows: seq<Row>, snap: Snapshot, d: nat, showTotal: bool)
    requires d >= 1
  {
    var m := snap.memory;
    var s := snap.swap;
    var t := snap.totals;
    && header == MemoryKeys
    && |rows| == (if showTotal then 3 else 2)
    && rows[0] == Row("Mem:", [Scale(m.total, d), Scale(m.used, d), Scale(m.free, d), Scale(m.active, d),
                               Scale(m.inactive, d), Scale(m.wired, d), Scale(m.available, d)])
    && rows[1] == Row("Swap:", [Scale(s.total, d), Scale(s.used, d), Scale(s.free, d)])
    && (showTotal ==> rows[2] == Row("Total:", [Scale(t.total, d), Scale(t.used, d), Scale(t.free, d)]))
  }

  /** One render of a snapshot in the selected unit and output format. */
  function DisplayOutput(opts: Options, u: UnitSpec, snap: Snapshot): (o: Output)
    requires ValidUnit(u)
    ensures o.Json? <==> SelectFormat(opts) == JsonFormat
    ensures o.Yaml? <==> SelectFormat(opts) == YamlFormat
    ensures o.Table? <==> SelectFormat(opts) == TextFormat
    ensures !o.Table? ==> DocumentShows(o.doc, snap, Divisor(u), u.prefix, opts.total)
    ensures o.Table? ==> TableShows(o.header, o.rows, snap, Divisor(u), opts.total)
  {
    var descriptor := u.prefix + "bytes";
    var d := Divisor(u);
    var memoryOut := MemoryOut(snap.memory, d);
    var swapOut := TripleOut(snap.swap.total, snap.swap.used, snap.swap.free, d);
    var totalsOut := TripleOut(snap.totals.total, snap.totals.used, snap.totals.free, d);
    match SelectFormat(opts)
    case JsonFormat => Json(StructuredDocument(opts.total, memoryOut, swapOut, totalsOut, descriptor))
    case YamlFormat => Yaml(StructuredDocument(opts.total, memoryOut, swapOut, totalsOut, descriptor))
    case TextFormat =>
      var memoryRow := Row("Mem:", [memoryOut["total"], memoryOut["used"], memoryOut["free"],
                                    memoryOut["active"], memoryOut["inactive"], memoryOut["wired"],
                                    memoryOut["available"]]);
      var swapRow := Row("Swap:", [swapOut["total"], swapOut["used"], swapOut["free"]]);
      var totalRow := Row("Total:", [totalsOut["total"], totalsOut["used"], totalsOut["free"]]);
      Table(MemoryKeys, if opts.total then [memoryRow, swapRow, totalRow] else [memoryRow, swapRow])
  }
}
