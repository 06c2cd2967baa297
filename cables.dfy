/** The fixed table of supported ACM cable types and their USB `VID:PID` addresses. */
module Cables {
  import opened Strings

  /** Cable type to the `VID:PID` pair that addresses the cable on the bus. */
  const CableVidPids: map<string, string> :=
    map["ure" := "1901:0020", "utt" := "1901:002f", "upp12" := "1901:0029"]

  /** The membership test the program makes before any trial. */
  function LookupVidPid(cableType: string): (r: Option<string>)
    ensures r.Some? <==> cableType in {"ure", "utt", "upp12"}
    ensures r.Some? ==> cableType in CableVidPids && r.value == CableVidPids[cableType]
    ensures cableType == "ure" ==> r == Some("1901:0020")
    ensures cableType == "utt" ==> r == Some("1901:002f")
    ensures cableType == "upp12" ==> r == Some("1901:0029")
    ensures r.Some? ==> |r.value| == 9 && r.value[..5] == "1901:"
  {
    if cableType in CableVidPids then Some(CableVidPids[cableType]) else None
  }

  /**
   * Every entry is a vendor `1901` address, and neither a cable type nor an
   * address holds the separators the generated names and arguments use.
   */
  lemma TableShape(cableType: string)
    requires cableType in CableVidPids
    ensures CableVidPids[cableType][..5] == "1901:" && |CableVidPids[cableType]| == 9
    ensures '_' !in cableType && ',' !in CableVidPids[cableType]
  {
  }
}
