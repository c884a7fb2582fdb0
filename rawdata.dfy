/**
 * Raw-data mode: one data file packaged with a begin and an end symbol whose
 * names come from the output file name without its ".syso" suffix.
 */
module RawData {
  import opened Binary
  import opened Errors
  import opened Container
  import opened Text

  const SysoSuffix: string := ".syso"

  /** The paths that can be opened; the empty path never can. */
  type OpenablePaths = s: set<string> | "" !in s

  predicate IsSymbolChar(c: char)
  {
    'a' <= c <= 'z' || '0' <= c <= '9' || c == '_'
  }

  /** The pattern ^[a-z0-9_]+$: one symbol character, then zero or more. */
  predicate MatchesSymbolPattern(s: string)
  {
    |s| > 0 && IsSymbolChar(s[0]) && (|s| == 1 || MatchesSymbolPattern(s[1..]))
  }

  /** A name the pattern accepts is non-empty and made only of a-z, 0-9 and _, and conversely. */
  lemma {:induction false} MatchesSymbolPatternIff(s: string)
    ensures MatchesSymbolPattern(s) <==> |s| > 0 && forall i :: 0 <= i < |s| ==> IsSymbolChar(s[i])
  {
    if |s| > 1 {
      MatchesSymbolPatternIff(s[1..]);
      assert forall i :: 1 <= i < |s| ==> s[i] == s[1..][i - 1];
    }
  }

  /**
   * The symbol stem for an output file name: the name must end in ".syso" and
   * what precedes the suffix must be one or more of a-z, 0-9 and _.
   */
  function SymbolName(out: string): (r: Result<string>)
    ensures r.Ok? <==>
      HasSuffix(out, SysoSuffix) &&
      |out| > |SysoSuffix| &&
      forall i :: 0 <= i < |out| - |SysoSuffix| ==> IsSymbolChar(out[i])
    ensures r.Ok? ==> r.value + SysoSuffix == out
    ensures !HasSuffix(out, SysoSuffix) ==> r == Err(MissingSysoSuffix(out))
    ensures HasSuffix(out, SysoSuffix) && r.Err? ==> r == Err(BadSymbolName(out))
  {
    if !HasSuffix(out, SysoSuffix) then Err(MissingSysoSuffix(out))
    else
      var stem := TrimSuffix(out, SysoSuffix);
      MatchesSymbolPatternIff(stem);
      assert forall i :: 0 <= i < |stem| ==> stem[i] == out[i];
      if MatchesSymbolPattern(stem) then Ok(stem) else Err(BadSymbolName(out))
  }

  function BeginSymbol(stem: string): string
  {
    "_brsrc_" + stem
  }

  function EndSymbol(stem: string): string
  {
    "_ersrc_" + stem
  }

  /** The end symbol's payload: two zero bytes. */
  const EndMarker: seq<byte> := [0, 0]

  /**
   * Packages the data file: the output name is validated before the data file
   * is opened, then the architecture is set, and the container holds the
   * begin symbol bound to the whole data file followed by the end symbol
   * bound to the two-byte marker.
   */
  method RunData(dataPath: string, out: string, arch: string, files: OpenablePaths)
    returns (res: Result<seq<Entry>>)
    ensures SymbolName(out).Err? ==> res == Err(SymbolName(out).error)
    ensures SymbolName(out).Ok? && dataPath !in files ==> res == Err(OpenFailed(dataPath))
    ensures SymbolName(out).Ok? && dataPath in files && ParseArch(arch).None? ==> res == Err(UnknownArch(arch))
    ensures res.Ok? <==> SymbolName(out).Ok? && dataPath in files && ParseArch(arch).Some?
    ensures res.Ok? ==>
      var stem := SymbolName(out).value;
      res.value == [Data(BeginSymbol(stem), WholeFile(dataPath)), Data(EndSymbol(stem), Buffer(EndMarker))]
  {
    var stem :- SymbolName(out);
    if dataPath !in files {
      return Err(OpenFailed(dataPath));
    }
    var c := new Coff(Rdata);
    var archErr := c.SetArch(arch);
    if archErr.Some? {
      return Err(archErr.value);
    }
    c.AddData(BeginSymbol(stem), WholeFile(dataPath));
    c.AddData(EndSymbol(stem), Buffer(EndMarker));
    c.Freeze();
    return Ok(c.entries);
  }

  /** The two symbols differ, and the end marker is two bytes long. */
  lemma SymbolsDistinct(stem: string)
    ensures BeginSymbol(stem) != EndSymbol(stem) && |EndMarker| == 2
  {
    assert BeginSymbol(stem)[1] == 'b' && EndSymbol(stem)[1] == 'e';
  }
}
