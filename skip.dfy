// The file-name skip filter (vidChew3.py:326-332).

module SkipFilter {
  import opened Text

  /** A file is skipped when any configured substring occurs in its name. */
  ghost predicate Skipped(fileName: string, skips: seq<string>) {
    exists k :: 0 <= k < |skips| && Occurs(skips[k], fileName)
  }

  /**
   * The script's loop: it walks the whole list (no early exit) and raises
   * doSkip on every hit.
   */
  method ShouldSkip(fileName: string, skips: seq<string>) returns (doSkip: bool)
    ensures doSkip <==> Skipped(fileName, skips)
  {
    doSkip := false;
    for k := 0 to |skips|
      invariant doSkip <==> exists j :: 0 <= j < k && Occurs(skips[j], fileName)
    {
      if Contains(fileName, skips[k]) {
        doSkip := true;
      }
    }
  }

  /** An empty entry occurs in every name, so it skips every file. */
  lemma EmptyEntrySkipsAll(fileName: string, skips: seq<string>)
    requires "" in skips
    ensures Skipped(fileName, skips)
  {
    var k :| 0 <= k < |skips| && skips[k] == "";
    assert OccursAt("", fileName, 0);
  }
}
