/** The Discord build a command targets and its names. */
module Kind {

  datatype DiscordKind = Stable | Ptb | Canary | Development

  /** The values the command line admits for `--branch`. */
  const KindArguments: seq<string> := ["stable", "ptb", "canary", "development"]

  /** `From<DiscordKind> for String`: the process and folder name of a build. */
  function KindName(kind: DiscordKind): (name: string)
    ensures |name| >= 7 && name[..7] == "Discord"
  {
    match kind
    case Stable => "Discord"
    case Ptb => "DiscordPTB"
    case Canary => "DiscordCanary"
    case Development => "DiscordDevelopment"
  }

  /** `ToString for DiscordKind` delegates to the conversion above. */
  function ToString(kind: DiscordKind): (name: string)
    ensures name == KindName(kind)
  {
    KindName(kind)
  }

  /** `From<String> for DiscordKind`; any other text panics, so it is excluded here. */
  function ParseKind(s: string): (kind: DiscordKind)
    requires s in KindArguments
    ensures ArgumentOf(kind) == s
  {
    match s
    case "stable" => Stable
    case "ptb" => Ptb
    case "canary" => Canary
    case "development" => Development
  }

  /** The command-line spelling that parses to `kind`. */
  function ArgumentOf(kind: DiscordKind): (s: string)
    ensures s in KindArguments
  {
    match kind
    case Stable => "stable"
    case Ptb => "ptb"
    case Canary => "canary"
    case Development => "development"
  }

  /** Distinct builds have distinct names. */
  lemma KindNameInjective(a: DiscordKind, b: DiscordKind)
    ensures KindName(a) == KindName(b) <==> a == b
  {
  }

  /** Parsing is a bijection between the admitted arguments and the builds. */
  lemma ParseKindBijective(s: string, kind: DiscordKind)
    requires s in KindArguments
    ensures ParseKind(ArgumentOf(kind)) == kind
    ensures ArgumentOf(ParseKind(s)) == s
  {
  }

  /** A process name is never itself an admitted argument (the two spellings are disjoint). */
  lemma KindNameIsNotArgument(kind: DiscordKind)
    ensures KindName(kind) !in KindArguments
  {
    assert KindName(kind)[0] == 'D';
  }
}
