/** The unit selector: which power of 1000 or 1024 the figures are divided by,
    and how the unit is named. */
module Units {
  import opened Machine
  import opened Flags

  datatype UnitSpec = UnitSpec(base: nat, exponent: nat, abbreviation: string, prefix: string)

  /** The shape every selected unit has: a base of 1000 or 1024 and an exponent of at most 6. */
  predicate ValidUnit(u: UnitSpec) {
    (u.base == 1000 || u.base == 1024) && u.exponent <= 6
  }

  /** The unit used when no size flag is given. */
  const DefaultUnit: UnitSpec := UnitSpec(1024, 1, "KiB", "kibi")

  /** The size selector as written: a fixed if/else chain with a default,
      followed by the `--si` override of the base. */
  function GetBaseExponent(opts: Options): (u: UnitSpec)
    ensures ValidUnit(u)
    ensures opts.si ==> u.base == 1000
    ensures u.exponent == 0 <==> opts.bytes
  {
    var chosen :=
      if opts.bytes then UnitSpec(1024, 0, "B", "")
      else if opts.kibi then UnitSpec(1024, 1, "KiB", "kibi")
      else if opts.mebi then UnitSpec(1024, 2, "MiB", "mebi")
      else if opts.gibi then UnitSpec(1024, 3, "GiB", "gibi")
      else if opts.tebi then UnitSpec(1024, 4, "TiB", "tebi")
      else if opts.pebi then UnitSpec(1024, 5, "PiB", "pebi")
      else if opts.exbi then UnitSpec(1024, 6, "EiB", "exbi")
      else if opts.kilo then UnitSpec(1000, 1, "KB", "kilo")
      else if opts.mega then UnitSpec(1000, 2, "MB", "mega")
      else if opts.giga then UnitSpec(1000, 3, "GB", "giga")
      else if opts.tera then UnitSpec(1000, 4, "TB", "tera")
      else if opts.peta then UnitSpec(1000, 5, "PB", "peta")
      else if opts.exa then UnitSpec(1000, 5, "EB", "exa")
      else DefaultUnit;
    if opts.si then chosen.(base := 1000) else chosen
  }

  // An independent description of the same selector: an ordered table of
  // size flags, each with the unit it stands for, consulted in priority order.

  datatype SizeFlag = Bytes | Kibi | Mebi | Gibi | Tebi | Pebi | Exbi
                    | Kilo | Mega | Giga | Tera | Peta | Exa

  /** Highest priority first. */
  const PriorityOrder: seq<SizeFlag> :=
    [Bytes, Kibi, Mebi, Gibi, Tebi, Pebi, Exbi, Kilo, Mega, Giga, Tera, Peta, Exa]

  predicate IsSet(opts: Options, f: SizeFlag) {
    match f
    case Bytes => opts.bytes
    case Kibi => opts.kibi
    case Mebi => opts.mebi
    case Gibi => opts.gibi
    case Tebi => opts.tebi
    case Pebi => opts.pebi
    case Exbi => opts.exbi
    case Kilo => opts.kilo
    case Mega => opts.mega
    case Giga => opts.giga
    case Tera => opts.tera
    case Peta => opts.peta
    case Exa => opts.exa
  }

  /** The unit a size flag names, before any `--si` override. `--exa` keeps the
      exponent 5 it has in the program, the same as `--peta`. */
  function FlagUnit(f: SizeFlag): UnitSpec {
    match f
    case Bytes => UnitSpec(1024, 0, "B", "")
    case Kibi => UnitSpec(1024, 1, "KiB", "kibi")
    case Mebi => UnitSpec(1024, 2, "MiB", "mebi")
    case Gibi => UnitSpec(1024, 3, "GiB", "gibi")
    case Tebi => UnitSpec(1024, 4, "TiB", "tebi")
    case Pebi => UnitSpec(1024, 5, "PiB", "pebi")
    case Exbi => UnitSpec(1024, 6, "EiB", "exbi")
    case Kilo => UnitSpec(1000, 1, "KB", "kilo")
    case Mega => UnitSpec(1000, 2, "MB", "mega")
    case Giga => UnitSpec(1000, 3, "GB", "giga")
    case Tera => UnitSpec(1000, 4, "TB", "tera")
    case Peta => UnitSpec(1000, 5, "PB", "peta")
    case Exa => UnitSpec(1000, 5, "EB", "exa")
  }

  datatype Option<T> = None | Some(value: T)

  /** The first flag of `order` that is set in `opts`, if any. */
  function FirstSet(order: seq<SizeFlag>, opts: Options): (r: Option<nat>)
    ensures r.Some? ==> r.value < |order| && IsSet(opts, order[r.value])
    ensures r.Some? ==> forall j :: 0 <= j < r.value ==> !IsSet(opts, order[j])
    ensures r.None? <==> forall j :: 0 <= j < |order| ==> !IsSet(opts, order[j])
  {
    if |order| == 0 then None
    else if IsSet(opts, order[0]) then Some(0)
    else
      match FirstSet(order[1..], opts)
      case None => None
      case Some(k) => Some(k + 1)
  }

  /** `--si` replaces the base and nothing else. */
  function ApplySi(opts: Options, u: UnitSpec): UnitSpec {
    if opts.si then u.(base := 1000) else u
  }

  /** The selector as a priority table: the first set flag in `PriorityOrder`
      decides, the default applies when none is set, then `--si` is applied. */
  function SelectByPriority(opts: Options): UnitSpec {
    match FirstSet(PriorityOrder, opts)
    case None => ApplySi(opts, DefaultUnit)
    case Some(i) => ApplySi(opts, FlagUnit(PriorityOrder[i]))
  }

  /** The first set flag is at position `i` when it is set and nothing before it is. */
  lemma FirstSetIs(opts: Options, i: nat)
    requires i < |PriorityOrder|
    requires IsSet(opts, PriorityOrder[i])
    requires forall j :: 0 <= j < i ==> !IsSet(opts, PriorityOrder[j])
    ensures FirstSet(PriorityOrder, opts) == Some(i)
  {
    var r := FirstSet(PriorityOrder, opts);
    assert r.Some?;
    assert r.value == i;
  }

  /** The if/else chain and the priority table agree on every command line. */
  lemma ChainIsPriorityTable(opts: Options)
    ensures GetBaseExponent(opts) == SelectByPriority(opts)
  {
    if opts.bytes {
      FirstSetIs(opts, 0);
    } else if opts.kibi {
      FirstSetIs(opts, 1);
    } else if opts.mebi {
      FirstSetIs(opts, 2);
    } else if opts.gibi {
      FirstSetIs(opts, 3);
    } else if opts.tebi {
      FirstSetIs(opts, 4);
    } else if opts.pebi {
      FirstSetIs(opts, 5);
    } else if opts.exbi {
      FirstSetIs(opts, 6);
    } else if opts.kilo {
      FirstSetIs(opts, 7);
    } else if opts.mega {
      FirstSetIs(opts, 8);
    } else if opts.giga {
      FirstSetIs(opts, 9);
    } else if opts.tera {
      FirstSetIs(opts, 10);
    } else if opts.peta {
      FirstSetIs(opts, 11);
    } else if opts.exa {
      FirstSetIs(opts, 12);
    } else {
      assert FirstSet(PriorityOrder, opts).None?;
    }
  }

  /** The first set flag in priority order decides the unit, whatever
      lower-priority flags are also set; `--si` then forces base 1000. */
  lemma FirstSetFlagWins(opts: Options, i: nat)
    requires i < |PriorityOrder|
    requires IsSet(opts, PriorityOrder[i])
    requires forall j :: 0 <= j < i ==> !IsSet(opts, PriorityOrder[j])
    ensures GetBaseExponent(opts) == ApplySi(opts, FlagUnit(PriorityOrder[i]))
  {
    ChainIsPriorityTable(opts);
    FirstSetIs(opts, i);
  }

  /** With no size flag the unit is the kibibyte default, up to `--si`. */
  lemma NoSizeFlagGivesDefault(opts: Options)
    requires forall f :: !IsSet(opts, f)
    ensures GetBaseExponent(opts) == ApplySi(opts, DefaultUnit)
    ensures !opts.si ==> GetBaseExponent(opts) == UnitSpec(1024, 1, "KiB", "kibi")
  {
    assert !IsSet(opts, Bytes) && !IsSet(opts, Kibi) && !IsSet(opts, Mebi) && !IsSet(opts, Gibi);
    assert !IsSet(opts, Tebi) && !IsSet(opts, Pebi) && !IsSet(opts, Exbi) && !IsSet(opts, Kilo);
    assert !IsSet(opts, Mega) && !IsSet(opts, Giga) && !IsSet(opts, Tera) && !IsSet(opts, Peta);
    assert !IsSet(opts, Exa);
  }

  /** `--si` changes the base to 1000 and leaves exponent, abbreviation and
      prefix exactly as the size flags alone select them. */
  lemma SiOnlyForcesBase(opts: Options)
    ensures GetBaseExponent(opts.(si := true))
         == GetBaseExponent(opts.(si := false)).(base := 1000)
    ensures GetBaseExponent(opts) == ApplySi(opts, GetBaseExponent(opts.(si := false)))
  {
  }
}
