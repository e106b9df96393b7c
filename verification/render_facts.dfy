/** Properties relating the renderer's outputs to each other and to the unit selector. */
module RenderFacts {
  import opened Machine
  import opened Flags
  import opened Units
  import opened Sampler
  import opened Render

  /** JSON and YAML serialise the same document; only the syntax differs. */
  lemma JsonAndYamlCarrySameDocument(opts: Options, u: UnitSpec, snap: Snapshot)
    requires ValidUnit(u)
    ensures DisplayOutput(opts.(json := true), u, snap).doc
         == DisplayOutput(opts.(json := false, yaml := true), u, snap).doc
  {
  }

  /** Every figure of the plain-text table is the figure the structured
      document holds under that column's key. */
  lemma TableAgreesWithDocument(opts: Options, u: UnitSpec, snap: Snapshot)
    requires ValidUnit(u)
    ensures var table := DisplayOutput(opts.(json := false, yaml := false), u, snap);
            var doc := DisplayOutput(opts.(json := true), u, snap).doc;
            && (forall i :: 0 <= i < |MemoryKeys| ==>
                  table.rows[0].figures[i] == doc["memory"].figures[table.header[i]])
            && (forall i :: 0 <= i < |TripleKeys| ==>
                  table.rows[1].figures[i] == doc["swap"].figures[TripleKeys[i]])
            && (opts.total ==> forall i :: 0 <= i < |TripleKeys| ==>
                  table.rows[2].figures[i] == doc["total"].figures[TripleKeys[i]])
  {
    var table := DisplayOutput(opts.(json := false, yaml := false), u, snap);
    var doc := DisplayOutput(opts.(json := true), u, snap).doc;
    assert table.header == MemoryKeys;
  }

  /** The figures are left unscaled exactly when `--bytes` is given. */
  lemma DivisorIsOneIffBytes(opts: Options)
    ensures Divisor(GetBaseExponent(opts)) == 1 <==> opts.bytes
  {
  }

  /** The divisor each size flag selects when `--si` is absent, and with it. */
  lemma SelectedDivisor(opts: Options, i: nat)
    requires i < |PriorityOrder|
    requires IsSet(opts, PriorityOrder[i])
    requires forall j :: 0 <= j < i ==> !IsSet(opts, PriorityOrder[j])
    ensures var f := FlagUnit(PriorityOrder[i]);
            Divisor(GetBaseExponent(opts)) == Pow(if opts.si then 1000 else f.base, f.exponent)
  {
    FirstSetFlagWins(opts, i);
  }

  /** A worked example: 16 MiB of memory with half of it free and 2 MiB of
      untouched swap, shown with `--mebi`. */
  lemma MebiExample()
    ensures var opts := NoFlags.(mebi := true, json := true);
            var raw := RawStats(0, 0, 0, 0, 8388608, 0, 0, 16777216, 8388608, 0, 2097152, 2097152);
            var doc := DisplayOutput(opts, GetBaseExponent(opts), GatherData(raw)).doc;
            && doc["descriptor"] == Text("mebibytes")
            && doc["memory"].figures["total"] == 16
            && doc["memory"].figures["free"] == 8
            && doc["memory"].figures["used"] == 8
            && doc["swap"].figures == map["total" := 2, "used" := 0, "free" := 2]
            && "total" !in doc
  {
    var opts := NoFlags.(mebi := true, json := true);
    assert GetBaseExponent(opts) == UnitSpec(1024, 2, "MiB", "mebi");
    assert Divisor(GetBaseExponent(opts)) == 1048576 by {
      assert Pow(1024, 1) == 1024;
    }
  }
}
