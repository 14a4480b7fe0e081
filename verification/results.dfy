/** Result codes and the small helpers every part of the apps library shares. */
module Results {

  /** `aoresult_t`: success, the "no I2C device found" code that callers treat
      specially, or any other error code. */
  datatype AoResult = Ok | NoI2cDev | Error(code: nat)

  datatype Option<T> = None | Some(value: T)

  /** `aocmd_cint_isprefix(full, prefix)`: `prefix` starts `full`.
      Modelled as plain sequence prefix, so the empty string prefixes every name. */
  predicate IsPrefix(prefix: string, full: string) {
    prefix <= full
  }

  /** The lowest index whose name `arg` prefixes, or -1 when none does. Both the
      `apps switch <name>` lookup and the swflag flag lookup search this way. */
  function FirstPrefixIndex(names: seq<string>, arg: string): (r: int)
    ensures -1 <= r < |names|
    ensures r >= 0 ==> IsPrefix(arg, names[r])
  {
    if |names| == 0 then -1
    else if IsPrefix(arg, names[0]) then 0
    else
      var k := FirstPrefixIndex(names[1..], arg);
      if k == -1 then -1 else k + 1
  }

  /** The index found is the first match: no earlier name matches, and -1 is
      returned exactly when no name matches at all. */
  lemma {:induction false} FirstPrefixIndexIsFirst(names: seq<string>, arg: string)
    ensures forall j :: 0 <= j < FirstPrefixIndex(names, arg) ==> !IsPrefix(arg, names[j])
    ensures FirstPrefixIndex(names, arg) == -1 <==> forall j :: 0 <= j < |names| ==> !IsPrefix(arg, names[j])
  {
    if |names| > 0 && !IsPrefix(arg, names[0]) {
      FirstPrefixIndexIsFirst(names[1..], arg);
      assert forall j :: 1 <= j < |names| ==> names[j] == names[1..][j - 1];
    }
  }

  /** The first match is the only index with its two properties, so a search
      that finds a match with none before it, or finds none, agrees with it. */
  lemma FirstPrefixIndexUnique(names: seq<string>, arg: string, r: int)
    requires -1 <= r < |names|
    requires r >= 0 ==> IsPrefix(arg, names[r])
    requires forall j :: 0 <= j < (if r >= 0 then r else |names|) ==> !IsPrefix(arg, names[j])
    ensures FirstPrefixIndex(names, arg) == r
  {
    FirstPrefixIndexIsFirst(names, arg);
  }
}
