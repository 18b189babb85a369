/** The comment that links the koji scratch build on the review request:
    the task URL is taken from the output of `koji build --scratch`, from
    the last line that mentions `Task info`. */
module BuildComment {
  import opened Wrappers
  import opened Exceptions
  import opened PyStr

  /** What a line must contain to be taken as the task line. */
  const TaskMarker := "Task info"
  /** What the line is split on to get the URL. */
  const TaskSeparator := "Task info:"
  const CommentPrefix := "This package built on koji: "

  /** `output.split('\n')`. */
  function Lines(output: string): seq<string> {
    Split(output, "\n")
  }

  /** A line the loop takes as the task line: it mentions `Task info`. */
  predicate IsTaskLine(line: string) {
    Contains(line, TaskMarker)
  }

  /** A task line on which `line.split('Task info:')[1]` raises. */
  predicate IsBrokenTaskLine(line: string) {
    IsTaskLine(line) && !Contains(line, TaskSeparator)
  }

  /** No line makes the scan raise. */
  predicate NoBrokenTaskLine(lines: seq<string>) {
    forall k :: 0 <= k < |lines| ==> !IsBrokenTaskLine(lines[k])
  }

  /** The index of the last task line. */
  function LastTaskLine(lines: seq<string>): (r: Option<nat>)
    ensures r.Some? ==> r.value < |lines| && IsTaskLine(lines[r.value])
    ensures r.Some? ==> forall k :: r.value < k < |lines| ==> !IsTaskLine(lines[k])
    ensures r.None? <==> forall k :: 0 <= k < |lines| ==> !IsTaskLine(lines[k])
  {
    if |lines| == 0 then None
    else if IsTaskLine(lines[|lines| - 1]) then Some(|lines| - 1)
    else LastTaskLine(lines[..|lines| - 1])
  }

  /** The URL text of a task line that has the separator:
      `line.split('Task info:')[1]`. */
  function UrlOfLine(line: string): string
    requires Contains(line, TaskSeparator)
  {
    SplitSecond(line, TaskSeparator).value
  }

  /** The URL the loop ends with when no line raises: that of the last task
      line, or None when there is none. */
  function LastUrl(lines: seq<string>): Option<string>
    requires NoBrokenTaskLine(lines)
  {
    match LastTaskLine(lines)
    case None => None
    case Some(k) => Some(UrlOfLine(lines[k]))
  }

  /** One more line: a broken task line makes the split fail; any other
      line keeps the prefix free of broken lines, and a task line replaces
      the URL. */
  lemma LastUrlExtend(prefix: seq<string>, line: string)
    requires NoBrokenTaskLine(prefix)
    ensures IsTaskLine(line) ==> (SplitSecond(line, TaskSeparator).Failure? <==> IsBrokenTaskLine(line))
    ensures !IsBrokenTaskLine(line) ==> NoBrokenTaskLine(prefix + [line])
    ensures !IsBrokenTaskLine(line) ==>
      LastUrl(prefix + [line]) == if IsTaskLine(line) then Some(SplitSecond(line, TaskSeparator).value) else LastUrl(prefix)
  {
    if IsBrokenTaskLine(line) {
      return;
    }
    var lines := prefix + [line];
    assert lines[..|lines| - 1] == prefix;
    assert NoBrokenTaskLine(lines) by {
      forall k | 0 <= k < |lines|
        ensures !IsBrokenTaskLine(lines[k])
      {
        if k < |prefix| {
          assert lines[k] == prefix[k];
        }
      }
    }
  }

  /** What the scan of the build output yields: IndexError when some task
      line lacks the separator, otherwise the URL of the last task line. */
  function TaskUrl(output: string): Result<Option<string>, Error> {
    var lines := Lines(output);
    if NoBrokenTaskLine(lines) then Success(LastUrl(lines)) else Failure(IndexError)
  }

  /** Python's `"%s" % url` for a str-or-None value. */
  function Render(url: Option<string>): string {
    match url
    case None => "None"
    case Some(u) => u
  }

  /** `ReviewRequest.add_comment_build` up to the call to `bug.addcomment`:
      scans the lines of the koji output, keeps the URL of the last task
      line, and returns the comment it would post. A task line without
      `Task info:` raises IndexError and no comment is posted. */
  method AddCommentBuild(outputBuild: string) returns (r: Result<string, Error>)
    ensures r.Failure? <==> !NoBrokenTaskLine(Lines(outputBuild))
    ensures r.Failure? ==> r.error == IndexError
    ensures r.Success? ==> r.value == CommentPrefix + Render(LastUrl(Lines(outputBuild)))
  {
    var lines := Lines(outputBuild);
    var url: Option<string> := None;
    var i := 0;
    while i < |lines|
      invariant 0 <= i <= |lines|
      invariant NoBrokenTaskLine(lines[..i])
      invariant url == LastUrl(lines[..i])
    {
      LastUrlExtend(lines[..i], lines[i]);
      if Contains(lines[i], TaskMarker) {
        var piece := SplitSecond(lines[i], TaskSeparator);
        if piece.Failure? {
          assert IsBrokenTaskLine(lines[i]);
          return Failure(piece.error);
        }
        url := Some(piece.value);
      }
      assert lines[..i + 1] == lines[..i] + [lines[i]];
      i := i + 1;
    }
    assert lines[..i] == lines;
    r := Success(CommentPrefix + Render(url));
  }

  // Properties of the scan.

  /** No task line, no URL: the comment names `None`. */
  lemma NoTaskLineNoUrl(output: string)
    requires forall k :: 0 <= k < |Lines(output)| ==> !IsTaskLine(Lines(output)[k])
    ensures TaskUrl(output) == Success(None)
    ensures CommentPrefix + Render(TaskUrl(output).value) == "This package built on koji: None"
  {
  }

  /** The last task line wins: when the lines are `before`, a task line,
      then lines without the marker, and no earlier task line lacks the
      separator, the URL is taken from that line. */
  lemma LastTaskLineWins(output: string, before: seq<string>, line: string, after: seq<string>)
    requires Lines(output) == before + [line] + after
    requires NoBrokenTaskLine(before)
    requires IsTaskLine(line) && Contains(line, TaskSeparator)
    requires forall k :: 0 <= k < |after| ==> !IsTaskLine(after[k])
    ensures TaskUrl(output) == Success(Some(UrlOfLine(line)))
  {
    var lines := Lines(output);
    var n := |before|;
    assert lines[n] == line;
    forall k | n < k < |lines|
      ensures !IsTaskLine(lines[k])
    {
      assert lines[k] == after[k - n - 1];
    }
    assert NoBrokenTaskLine(lines) by {
      forall k | 0 <= k < |lines|
        ensures !IsBrokenTaskLine(lines[k])
      {
        if k < n {
          assert lines[k] == before[k];
        }
      }
    }
    var last := LastTaskLine(lines);
    assert last.Some? by {
      assert IsTaskLine(lines[n]);
    }
  }

  /** A task line without `Task info:` makes the scan raise IndexError,
      wherever it stands. */
  lemma BrokenTaskLineRaises(output: string, k: nat)
    requires k < |Lines(output)|
    requires IsTaskLine(Lines(output)[k]) && !Contains(Lines(output)[k], TaskSeparator)
    ensures TaskUrl(output) == Failure(IndexError)
  {
    assert IsBrokenTaskLine(Lines(output)[k]);
  }

  /** The URL of a task line is the text right after its first
      `Task info:`, up to a second one or the end of the line, with any
      leading blank kept. */
  lemma UrlOfLineSpec(line: string)
    requires Contains(line, TaskSeparator)
    ensures exists j: nat, e: nat ::
      BoundsSecondPiece(line, TaskSeparator, j, e) && UrlOfLine(line) == line[j + |TaskSeparator|..e]
  {
    SplitSecondSpec(line, TaskSeparator);
  }

  /** On a line that starts with `Task info:` and has no second one, the
      URL is everything after the colon, blanks included. */
  lemma TaskLineUrl(rest: string)
    requires !Contains(rest, TaskSeparator)
    ensures Contains(TaskSeparator + rest, TaskSeparator)
    ensures UrlOfLine(TaskSeparator + rest) == rest
  {
    var line := TaskSeparator + rest;
    assert line[|TaskSeparator|..] == rest;
    assert OccursAt(line, TaskSeparator, 0);
    FindIsFirst(line, TaskSeparator, 0);
    assert Split(line, TaskSeparator) == [line[..0]] + Split(rest, TaskSeparator);
  }

  /** The usual koji line: the URL keeps the blank that follows the colon. */
  lemma UsualTaskLine(url: string)
    requires !Contains(url, TaskSeparator)
    ensures Contains("Task info: " + url, TaskSeparator)
    ensures UrlOfLine("Task info: " + url) == " " + url
  {
    assert "Task info: " + url == TaskSeparator + (" " + url);
    NotContainsAfterChar(' ', url, TaskSeparator);
    TaskLineUrl(" " + url);
  }
}
