/** The data of the review request ticket (`create_review_request`): a
    fixed product/component template, the one-line summary built from the
    package name and summary, and the first comment built from the two
    URLs and the description. */
module Ticket {
  import opened Wrappers
  import opened Exceptions
  import opened PyStr

  const ShortDescPrefix := "Review Request: "
  const NameSummarySeparator := " - "

  // The pieces of the BUG_COMMENT template around its three `%s`.
  const SpecUrlLabel := "\nSpec URL: "
  const SrpmUrlLabel := "\nSRPM URL: "
  const DescriptionLabel := "\n\nDescription:\n"
  const CommentEnd := "\n"

  /** The keyword arguments of `bzclient.createbug`. */
  datatype BugData = BugData(
    product: string,
    component: string,
    version: string,
    shortDesc: string,
    comment: string,
    repPlatform: string,
    bugSeverity: string,
    opSys: string,
    bugFileLoc: string,
    priority: string)

  /** `'Review Request: %s - %s' % (name, summary)`. */
  function ShortDesc(name: string, summary: string): string {
    ShortDescPrefix + name + NameSummarySeparator + summary
  }

  /** `BUG_COMMENT % (specurl, srpmurl, description)`. */
  function BugComment(specUrl: string, srpmUrl: string, description: string): string {
    SpecUrlLabel + specUrl + SrpmUrlLabel + srpmUrl + DescriptionLabel + description + CommentEnd
  }

  /** Python's `info[key]`. */
  function Lookup(info: map<string, string>, key: string): Result<string, Error> {
    if key in info then Success(info[key]) else Failure(KeyError(key))
  }

  /** The data `create_review_request` passes to `createbug`. The dict
      entries are read in the order the literal names them (name, summary,
      specurl, srpmurl, description); the first missing one raises
      KeyError. */
  function CreateReviewRequest(info: map<string, string>): Result<BugData, Error> {
    match Lookup(info, "name")
    case Failure(e) => Failure(e)
    case Success(name) =>
    match Lookup(info, "summary")
    case Failure(e) => Failure(e)
    case Success(summary) =>
    match Lookup(info, "specurl")
    case Failure(e) => Failure(e)
    case Success(specUrl) =>
    match Lookup(info, "srpmurl")
    case Failure(e) => Failure(e)
    case Success(srpmUrl) =>
    match Lookup(info, "description")
    case Failure(e) => Failure(e)
    case Success(description) =>
      Success(ReviewTicket(name, summary, specUrl, srpmUrl, description))
  }

  /** The ticket filed for a package: the fixed template with the summary
      line and the first comment. */
  function ReviewTicket(name: string, summary: string, specUrl: string, srpmUrl: string, description: string): BugData {
    BugData(
      product := "Fedora",
      component := "Package Review",
      version := "rawhide",
      shortDesc := ShortDesc(name, summary),
      comment := BugComment(specUrl, srpmUrl, description),
      repPlatform := "Unspecified",
      bugSeverity := "unspecified",
      opSys := "Unspecified",
      bugFileLoc := "",
      priority := "unspecified")
  }

  const TicketKeys := ["name", "summary", "specurl", "srpmurl", "description"]

  /** The ticket is built exactly when the five entries are all present;
      otherwise the error names the first missing one. A built ticket is
      filed against Fedora's Package Review component with the summary
      line and comment made from those entries. */
  lemma CreateReviewRequestSpec(info: map<string, string>)
    ensures CreateReviewRequest(info).Success? <==> forall i :: 0 <= i < |TicketKeys| ==> TicketKeys[i] in info
    ensures CreateReviewRequest(info).Failure? ==>
      exists i :: 0 <= i < |TicketKeys| && TicketKeys[i] !in info
        && CreateReviewRequest(info).error == KeyError(TicketKeys[i])
        && forall k :: 0 <= k < i ==> TicketKeys[k] in info
    ensures CreateReviewRequest(info).Success? ==>
      var d := CreateReviewRequest(info).value;
      && d.product == "Fedora" && d.component == "Package Review" && d.version == "rawhide"
      && d.shortDesc == ShortDesc(info["name"], info["summary"])
      && d.comment == BugComment(info["specurl"], info["srpmurl"], info["description"])
      && d.repPlatform == "Unspecified" && d.bugSeverity == "unspecified" && d.opSys == "Unspecified"
      && d.bugFileLoc == "" && d.priority == "unspecified"
  {
    if "name" !in info {
      assert TicketKeys[0] !in info;
    } else if "summary" !in info {
      assert TicketKeys[1] !in info;
    } else if "specurl" !in info {
      assert TicketKeys[2] !in info;
    } else if "srpmurl" !in info {
      assert TicketKeys[3] !in info;
    } else if "description" !in info {
      assert TicketKeys[4] !in info;
    }
  }

  /** With the five entries present, the ticket is the one made of them. */
  lemma CreateReviewRequestOf(info: map<string, string>, name: string, summary: string, specUrl: string, srpmUrl: string, description: string)
    requires "name" in info && info["name"] == name
    requires "summary" in info && info["summary"] == summary
    requires "specurl" in info && info["specurl"] == specUrl
    requires "srpmurl" in info && info["srpmurl"] == srpmUrl
    requires "description" in info && info["description"] == description
    ensures CreateReviewRequest(info) == Success(ReviewTicket(name, summary, specUrl, srpmUrl, description))
  {
  }

  // Reading the two texts back, to show that the templates lose nothing.

  /** The name and summary of a `Review Request: <name> - <summary>`
      line, the name ending at the first ` - `. */
  function ParseShortDesc(s: string): Option<(string, string)> {
    if |s| < |ShortDescPrefix| || s[..|ShortDescPrefix|] != ShortDescPrefix then None
    else
      var rest := s[|ShortDescPrefix|..];
      match Find(rest, NameSummarySeparator)
      case None => None
      case Some(j) => Some((rest[..j], rest[j + |NameSummarySeparator|..]))
  }

  /** The summary line gives back the name and summary it was made of,
      for a package name without blanks (rpm names have none). */
  lemma ShortDescRoundTrip(name: string, summary: string)
    requires ' ' !in name
    ensures ParseShortDesc(ShortDesc(name, summary)) == Some((name, summary))
  {
    var s := ShortDesc(name, summary);
    var rest := name + NameSummarySeparator + summary;
    assert s[..|ShortDescPrefix|] == ShortDescPrefix;
    assert s[|ShortDescPrefix|..] == rest;
    var n := |name|;
    assert rest[n..n + 3] == NameSummarySeparator;
    forall k | 0 <= k < n
      ensures !OccursAt(rest, NameSummarySeparator, k)
    {
      assert rest[k] == name[k];
    }
    FindIsFirst(rest, NameSummarySeparator, n);
    assert rest[..n] == name;
    assert rest[n + 3..] == summary;
  }

  /** The text up to the first `\n` of `s`, and what follows it. */
  function SplitLine(s: string): Option<(string, string)> {
    match Find(s, "\n")
    case None => None
    case Some(j) => Some((s[..j], s[j + 1..]))
  }

  /** The line that follows `heading` at the start of `s`, and the text
      after that line's break. */
  function LabelledLine(s: string, heading: string): Option<(string, string)> {
    if |s| < |heading| || s[..|heading|] != heading then None
    else SplitLine(s[|heading|..])
  }

  /** The spec URL, SRPM URL and description of a text in the BUG_COMMENT
      layout, each URL ending at the first line break after its heading. */
  function ParseBugComment(s: string): Option<(string, string, string)> {
    match LabelledLine(s, SpecUrlLabel)
    case None => None
    case Some(p1) =>
      match LabelledLine("\n" + p1.1, SrpmUrlLabel)
      case None => None
      case Some(p2) =>
        var rest := "\n" + p2.1;
        var lead := |DescriptionLabel|;
        if |rest| < lead + 1 || rest[..lead] != DescriptionLabel || rest[|rest| - 1] != '\n' then None
        else Some((p1.0, p2.0, rest[lead..|rest| - 1]))
  }

  /** A line break ends the first line at the first `\n`. */
  lemma SplitLineAt(line: string, tail: string)
    requires '\n' !in line
    ensures SplitLine(line + "\n" + tail) == Some((line, tail))
  {
    var s := line + "\n" + tail;
    var n := |line|;
    assert OccursAt(s, "\n", n) by {
      assert s[n..n + 1] == "\n";
    }
    forall k | 0 <= k < n
      ensures !OccursAt(s, "\n", k)
    {
      assert s[k] == line[k];
    }
    FindIsFirst(s, "\n", n);
    assert s[..n] == line;
    assert s[n + 1..] == tail;
  }

  /** A heading, a line and a break are read back as that line. */
  lemma LabelledLineAt(heading: string, line: string, tail: string)
    requires '\n' !in line
    ensures LabelledLine(heading + line + "\n" + tail, heading) == Some((line, tail))
  {
    var s := heading + line + "\n" + tail;
    assert s[..|heading|] == heading;
    assert s[|heading|..] == line + "\n" + tail;
    SplitLineAt(line, tail);
  }

  /** The comment gives back the two URLs and the description, in that
      order, for URLs without line breaks (which composed URLs are, when
      the user name, target and file names have none). */
  lemma BugCommentRoundTrip(specUrl: string, srpmUrl: string, description: string)
    requires '\n' !in specUrl && '\n' !in srpmUrl
    ensures ParseBugComment(BugComment(specUrl, srpmUrl, description)) == Some((specUrl, srpmUrl, description))
  {
    var afterSrpm := "\nDescription:\n" + description + CommentEnd;
    var afterSpec := "SRPM URL: " + srpmUrl + "\n" + afterSrpm;
    CommentLayout(specUrl, srpmUrl, description);
    LabelledLineAt(SpecUrlLabel, specUrl, afterSpec);
    LabelledLineAt(SrpmUrlLabel, srpmUrl, afterSrpm);
    DescriptionTail(description);
  }

  /** BUG_COMMENT cut at the line breaks that end the two URL lines. */
  lemma CommentLayout(specUrl: string, srpmUrl: string, description: string)
    ensures
      var afterSrpm := "\nDescription:\n" + description + CommentEnd;
      var afterSpec := "SRPM URL: " + srpmUrl + "\n" + afterSrpm;
      && BugComment(specUrl, srpmUrl, description) == SpecUrlLabel + specUrl + "\n" + afterSpec
      && "\n" + afterSpec == SrpmUrlLabel + srpmUrl + "\n" + afterSrpm
  {
  }

  /** The description is what lies between its heading and the final
      line break. */
  lemma DescriptionTail(description: string)
    ensures
      var rest := "\n" + ("\nDescription:\n" + description + CommentEnd);
      && |rest| >= |DescriptionLabel| + 1
      && rest[..|DescriptionLabel|] == DescriptionLabel
      && rest[|rest| - 1] == '\n'
      && rest[|DescriptionLabel|..|rest| - 1] == description
  {
    var rest := "\n" + ("\nDescription:\n" + description + CommentEnd);
    assert rest == DescriptionLabel + description + "\n";
  }
}
