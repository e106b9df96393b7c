/** The parsed command line of `free`: thirteen size flags, the output-format,
    `--si` and `--total` switches, and the `--seconds`/`--count` integers.
    The `--version` callback is not part of this record (it exits during parsing). */
module Flags {
  import opened Machine

  datatype Options = Options(
    bytes: bool,
    kilo: bool,
    mega: bool,
    giga: bool,
    tera: bool,
    peta: bool,
    exa: bool,
    kibi: bool,
    mebi: bool,
    gibi: bool,
    tebi: bool,
    pebi: bool,
    exbi: bool,
    json: bool,
    yaml: bool,
    si: bool,
    total: bool,
    seconds: Int64,
    count: Int64)

  /** The command line with no flag at all. */
  const NoFlags: Options :=
    Options(false, false, false, false, false, false, false,
            false, false, false, false, false, false,
            false, false, false, false, 0, 0)
}
