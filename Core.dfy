/** Operating-system classification (sync-git-plugin/src/core.ts). The name
    reported by the host (`OS.type()`) is a parameter, `osName`. */
module Core {

  /** `OsType`. */
  datatype OsType = Win | MacOS | Linux | Unknown

  /** `curOsType`: the three names the plugin recognises, compared exactly
      (case-sensitively); every other name is Unknown. */
  function CurOsType(osName: string): (t: OsType)
    ensures t == Linux <==> osName == "Linux"
    ensures t == Win <==> osName == "Windows_NT"
    ensures t == MacOS <==> osName == "Darwin"
    ensures t == Unknown <==> osName !in KnownNames
  {
    if osName == "Linux" then Linux
    else if osName == "Windows_NT" then Win
    else if osName == "Darwin" then MacOS
    else Unknown
  }

  /** `isOsType`: the current system is of the given type. */
  predicate IsOsType(osName: string, t: OsType)
  {
    CurOsType(osName) == t
  }

  /** Reference table: each recognised name and the type it stands for. */
  const KnownNames: map<string, OsType> := map["Linux" := Linux, "Windows_NT" := Win, "Darwin" := MacOS]

  /** The if-chain agrees with the table lookup, Unknown off the table. */
  lemma CurOsTypeIsTableLookup(osName: string)
    ensures CurOsType(osName) == if osName in KnownNames then KnownNames[osName] else Unknown
  {
  }

  /** The name a recognised type is reported under. */
  function OsTypeName(t: OsType): (name: string)
    requires t != Unknown
    ensures name in KnownNames && KnownNames[name] == t
  {
    match t
    case Linux => "Linux"
    case Win => "Windows_NT"
    case MacOS => "Darwin"
  }

  /** Classifying a recognised type's name gives that type back, and a name
      that classifies as something known is that type's name: the three
      names and the three known types correspond one to one. */
  lemma ClassifyRoundTrip(t: OsType, osName: string)
    ensures t != Unknown ==> CurOsType(OsTypeName(t)) == t
    ensures CurOsType(osName) != Unknown ==> OsTypeName(CurOsType(osName)) == osName
  {
  }

  /** Names that differ only in case are not recognised. */
  lemma OtherCasingIsUnknown()
    ensures CurOsType("linux") == Unknown && CurOsType("LINUX") == Unknown
    ensures CurOsType("windows_nt") == Unknown && CurOsType("darwin") == Unknown
  {
  }

  /** For one system name exactly one type satisfies `isOsType`. */
  lemma ExactlyOneOsType(osName: string, t1: OsType, t2: OsType)
    ensures IsOsType(osName, CurOsType(osName))
    ensures IsOsType(osName, t1) && IsOsType(osName, t2) ==> t1 == t2
  {
  }
}
