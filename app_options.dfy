/**
 * Per-application workarounds (`D3D10GetAppOptions`): a fixed table from
 * executable name to option set, looked up by exact name.
 */
module AppOptions {

  datatype Option = AllowMapFlagNoWait

  /** The table: only Dishonored 2 honours `D3D10_MAP_FLAG_DO_NOT_WAIT`. */
  const AppOptionTable: map<string, set<Option>> := map["Dishonored2.exe" := {AllowMapFlagNoWait}]

  /** The options for an executable: its table entry, or the empty set. */
  function GetAppOptions(appName: string): (r: set<Option>)
    ensures appName == "Dishonored2.exe" ==> r == {AllowMapFlagNoWait}
    ensures appName != "Dishonored2.exe" ==> r == {}
  {
    if appName in AppOptionTable then AppOptionTable[appName] else {}
  }

  /**
   * The match is exact and case-sensitive: a name that differs from the
   * table entry in any character, letter case included, gets nothing.
   */
  lemma LookupIsExact(appName: string)
    requires |appName| == |"Dishonored2.exe"|
    requires exists i :: 0 <= i < |appName| && appName[i] != "Dishonored2.exe"[i]
    ensures GetAppOptions(appName) == {}
  {
  }

  /** Lowercasing the table's name is enough to lose the option. */
  lemma LowercaseNameGetsNothing()
    ensures GetAppOptions("dishonored2.exe") == {}
    ensures AllowMapFlagNoWait in GetAppOptions("Dishonored2.exe")
  {
    assert "dishonored2.exe"[0] != "Dishonored2.exe"[0];
  }
}
