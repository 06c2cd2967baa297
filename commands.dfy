/**
 * The artifact name and the three argument vectors a trial builds from the
 * cable type and the serial number.
 */
module Commands {
  import opened Strings

  /** The Perl script that builds a serial-number `.dfu` file. */
  const DfuBuildUtility: string := "dfu_util.pl"

  /** `'sn_' + cable_type + '_' + serial_number + '.dfu'` */
  function DfuFileName(cableType: string, serialNumber: string): (f: string)
    ensures "sn_" <= f && |f| == |cableType| + |serialNumber| + 8
  {
    "sn_" + cableType + "_" + serialNumber + ".dfu"
  }

  /**
   * Reads the cable type and the serial number back out of an artifact name:
   * the text between the `sn_` prefix and the `.dfu` suffix, split at its
   * first `_`.
   */
  function ParseDfuFileName(f: string): (r: Option<(string, string)>)
    ensures r.Some? ==> DfuFileName(r.value.0, r.value.1) == f && '_' !in r.value.0
  {
    match StripPrefix(f, "sn_")
    case None => None
    case Some(rest) =>
      if |rest| >= 4 && rest[|rest| - 4..] == ".dfu" then
        var middle := rest[..|rest| - 4];
        assert rest == middle + ".dfu";
        match SplitOnce(middle, '_')
        case Some(parts) =>
          assert DfuFileName(parts.0, parts.1) == "sn_" + ((parts.0 + "_" + parts.1) + ".dfu");
          Some(parts)
        case None => None
      else None
  }

  /** The artifact name determines the cable type and the serial number it was built from. */
  lemma {:induction false} DfuFileNameRoundTrip(cableType: string, serialNumber: string)
    requires '_' !in cableType
    ensures ParseDfuFileName(DfuFileName(cableType, serialNumber)) == Some((cableType, serialNumber))
  {
    var f := DfuFileName(cableType, serialNumber);
    var middle := cableType + "_" + serialNumber;
    var rest := middle + ".dfu";
    assert f == "sn_" + rest;
    StripPrefixJoin("sn_", rest);
    assert rest[..|rest| - 4] == middle;
    SplitOnceJoin(cableType, '_', serialNumber);
  }

  /** Two trials only share an artifact name when they share cable type and serial number. */
  lemma DfuFileNameInjective(c1: string, s1: string, c2: string, s2: string)
    requires '_' !in c1 && '_' !in c2
    requires DfuFileName(c1, s1) == DfuFileName(c2, s2)
    ensures c1 == c2 && s1 == s2
  {
    DfuFileNameRoundTrip(c1, s1);
    DfuFileNameRoundTrip(c2, s2);
  }

  /** `perl dfu_util.pl "-s <sn>" "-a<cable>" "-o <file>" -v`, with the script's own spacing. */
  function BuildCommand(cableType: string, serialNumber: string, dfuFileName: string): (argv: seq<string>)
    ensures |argv| == 6 && argv[0] == "perl" && argv[1] == DfuBuildUtility && argv[5] == "-v"
    ensures StripPrefix(argv[2], "-s ") == Some(serialNumber)
    ensures StripPrefix(argv[3], "-a") == Some(cableType)
    ensures StripPrefix(argv[4], "-o ") == Some(dfuFileName)
  {
    ["perl", DfuBuildUtility, "-s " + serialNumber, "-a" + cableType, "-o " + dfuFileName, "-v"]
  }

  /** The two addresses of a `-d <vid:pid>,<vid:pid>` argument. */
  function ParseDeviceList(arg: string): (r: Option<(string, string)>)
    ensures r.Some? ==> arg == "-d " + r.value.0 + "," + r.value.1
  {
    match StripPrefix(arg, "-d ")
    case Some(rest) => SplitOnce(rest, ',')
    case None => None
  }

  /** `dfu-util -v "-d <vid:pid>,<vid:pid>" " -D <file>"`: flash the built artifact. */
  function FlashCommand(vidPid: string, dfuFileName: string): (argv: seq<string>)
    ensures |argv| == 4 && argv[0] == "dfu-util" && argv[1] == "-v"
    ensures ',' !in vidPid ==> ParseDeviceList(argv[2]) == Some((vidPid, vidPid))
    ensures StripPrefix(argv[3], " -D ") == Some(dfuFileName)
  {
    DeviceListRoundTrip(vidPid);
    ["dfu-util", "-v", "-d " + vidPid + "," + vidPid, " -D " + dfuFileName]
  }

  /** A `-d` argument naming one comma-free address twice parses back to that address. */
  lemma DeviceListRoundTrip(vidPid: string)
    ensures ',' !in vidPid ==> ParseDeviceList("-d " + vidPid + "," + vidPid) == Some((vidPid, vidPid))
  {
    if ',' !in vidPid {
      assert "-d " + vidPid + "," + vidPid == "-d " + (vidPid + "," + vidPid);
      StripPrefixJoin("-d ", vidPid + "," + vidPid);
      SplitOnceJoin(vidPid, ',', vidPid);
    }
  }

  /** `lsusb -v "-d <vid:pid>"`: list the descriptors of the flashed cable. */
  function EnumerateCommand(vidPid: string): (argv: seq<string>)
    ensures |argv| == 3 && argv[0] == "lsusb" && argv[1] == "-v"
    ensures StripPrefix(argv[2], "-d ") == Some(vidPid)
  {
    ["lsusb", "-v", "-d " + vidPid]
  }
}
