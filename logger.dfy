/** `_source_path`: the dotted name of a source file under which the logger
    reports a call. The rest of the logger (handlers, decorators, timing) is
    not part of this model. */
module Logger {
  import opened PyStrings

  /** A file name with `.py` removed and both path separators turned into `.`. */
  function DottedPath(filename: string): (p: string)
    ensures '/' !in p && '\\' !in p
  {
    var noExt := Replace(filename, ".py", "");
    var slashes := Replace(noExt, "/", ".");
    ReplaceCharRemoves(noExt, '/', '.', '/');
    ReplaceCharRemoves(slashes, '\\', '.', '\\');
    ReplaceCharRemoves(slashes, '\\', '.', '/');
    Replace(slashes, "\\", ".")
  }

  /** The part of `p` that starts just after the first `.` of the first
      occurrence of `marker`. */
  function AfterMarker(p: string, marker: string): (r: string)
    requires IsSubstring(marker, p) && |marker| >= 1
    ensures exists i :: OccursAt(marker, p, i) && (forall j :: 0 <= j < i ==> !OccursAt(marker, p, j))
                      && r == p[i + 1..]
  {
    p[Find(p, marker) + 1..]
  }

  /** `_source_path(filename)`: the dotted path from the first `.test.`, else
      from the first `.test_automation.`, else from the first `.src.`, else the
      whole dotted path. */
  function SourcePath(filename: string): (r: string)
    ensures '/' !in r && '\\' !in r
    ensures exists i :: 0 <= i <= |DottedPath(filename)| && r == DottedPath(filename)[i..]
    ensures var p := DottedPath(filename);
      !IsSubstring(".test.", p) && !IsSubstring(".test_automation.", p) && !IsSubstring(".src.", p) ==> r == p
    ensures var p := DottedPath(filename);
      IsSubstring(".test.", p) ==> r == AfterMarker(p, ".test.")
    ensures var p := DottedPath(filename);
      !IsSubstring(".test.", p) && IsSubstring(".test_automation.", p) ==> r == AfterMarker(p, ".test_automation.")
    ensures var p := DottedPath(filename);
      !IsSubstring(".test.", p) && !IsSubstring(".test_automation.", p) && IsSubstring(".src.", p) ==> r == AfterMarker(p, ".src.")
  {
    var p := DottedPath(filename);
    if IsSubstring(".test.", p) then AfterMarker(p, ".test.")
    else if IsSubstring(".test_automation.", p) then AfterMarker(p, ".test_automation.")
    else if IsSubstring(".src.", p) then AfterMarker(p, ".src.")
    else assert p == p[0..]; p
  }

  /** The text after a marker starts with the marker without its leading `.`. */
  lemma AfterMarkerStarts(p: string, marker: string)
    requires IsSubstring(marker, p) && |marker| >= 1
    ensures StartsWith(AfterMarker(p, marker), marker[1..])
  {
    var i := Find(p, marker);
    assert p[i + 1..][..|marker| - 1] == p[i..i + |marker|][1..];
  }

  /** With `.test.` in the dotted path, the result starts with `test.`. */
  lemma SourcePathTest(filename: string)
    requires IsSubstring(".test.", DottedPath(filename))
    ensures StartsWith(SourcePath(filename), "test.")
  {
    AfterMarkerStarts(DottedPath(filename), ".test.");
  }

  /** `.test_automation.` is tried only when `.test.` is absent. */
  lemma SourcePathTestAutomation(filename: string)
    requires !IsSubstring(".test.", DottedPath(filename))
    requires IsSubstring(".test_automation.", DottedPath(filename))
    ensures StartsWith(SourcePath(filename), "test_automation.")
  {
    AfterMarkerStarts(DottedPath(filename), ".test_automation.");
  }

  /** `.src.` is tried last. */
  lemma SourcePathSrc(filename: string)
    requires !IsSubstring(".test.", DottedPath(filename))
    requires !IsSubstring(".test_automation.", DottedPath(filename))
    requires IsSubstring(".src.", DottedPath(filename))
    ensures StartsWith(SourcePath(filename), "src.")
  {
    AfterMarkerStarts(DottedPath(filename), ".src.");
  }

  /** Removing `.py` is a single pass from the left: an occurrence formed by
      the removal itself survives. */
  lemma DottedPathSinglePass()
    ensures DottedPath("a.p.pyy") == "a.py"
  {
    RemovePyOnce();
    CharSubstring("a.py", '/');
    CharSubstring("a.py", '\\');
    ReplaceAbsent("a.py", "/", ".");
    ReplaceAbsent("a.py", "\\", ".");
  }

  /** The `.py` removal of `a.p.pyy`, one position at a time. */
  lemma RemovePyOnce()
    ensures Replace("a.p.pyy", ".py", "") == "a.py"
  {
    assert Replace("y", ".py", "") == "y";
    ReplaceFront(".py", "y", "");
    assert ".py" + "y" == ".pyy";
    ReplaceSkip('p', ".pyy", ".py", "");
    assert ['p'] + ".pyy" == "p.pyy";
    ReplaceSkip('.', "p.pyy", ".py", "");
    assert ['.'] + "p.pyy" == ".p.pyy";
    ReplaceSkip('a', ".p.pyy", ".py", "");
    assert ['a'] + ".p.pyy" == "a.p.pyy";
  }
}
