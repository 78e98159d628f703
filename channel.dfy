/** The moonlight distribution channels and their names. */
module Channel {

  datatype Channel = Stable | Nightly | Git

  /** The values the command line admits for `--channel`. */
  const ChannelArguments: seq<string> := ["stable", "nightly", "git"]

  /** `From<String> for Channel`; any other text panics, so it is excluded here. */
  function ParseChannel(s: string): (c: Channel)
    requires s in ChannelArguments
    ensures BranchMarker(c) == s
  {
    match s
    case "stable" => Stable
    case "nightly" => Nightly
    case "git" => Git
  }

  /** The branch marker a successful download of the channel writes. */
  function BranchMarker(c: Channel): (s: string)
    ensures s in ChannelArguments
  {
    match c
    case Stable => "stable"
    case Nightly => "nightly"
    case Git => "git"
  }

  /**
   * The reading of a branch marker's content: the three names map to their
   * channels and every other text (a trailing newline included) to Stable.
   */
  function MarkerChannel(content: string): (c: Channel)
    ensures content !in ChannelArguments ==> c == Stable
  {
    match content
    case "stable" => Stable
    case "nightly" => Nightly
    case "git" => Git
    case _ => Stable
  }

  /** Parsing admitted input is total and inverts `BranchMarker`. */
  lemma ParseChannelBijective(s: string, c: Channel)
    requires s in ChannelArguments
    ensures ParseChannel(BranchMarker(c)) == c
    ensures BranchMarker(ParseChannel(s)) == s
  {
  }

  /** Every marker a download writes resolves back to the channel that wrote it. */
  lemma MarkerRoundTrip(c: Channel)
    ensures MarkerChannel(BranchMarker(c)) == c
  {
  }

  /** On admitted input the marker reading and the argument parser agree. */
  lemma MarkerAgreesWithParser(s: string)
    requires s in ChannelArguments
    ensures MarkerChannel(s) == ParseChannel(s)
  {
  }

  /** A marker file ending in a newline is not recognised and falls back to Stable. */
  lemma TrailingNewlineFallsBack(c: Channel)
    ensures MarkerChannel(BranchMarker(c) + "\n") == Stable
  {
    assert BranchMarker(c) + "\n" !in ChannelArguments by {
      var m := BranchMarker(c) + "\n";
      assert m[|m| - 1] == '\n';
    }
  }
}
