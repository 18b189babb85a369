/** `ReviewRequest`: the run of the script from the parsed command line to
    the created ticket. The steps outside the model (koji, scp, the rpm
    header, the user lookup, Bugzilla) are given as their answers in an
    Environment; each call the script makes to one of them is recorded in
    `calls`, in order, so that the order of the steps and where a run stops
    can be stated. */
module Review {
  import opened Wrappers
  import opened Exceptions
  import opened Config
  import opened Urls
  import opened Ticket
  import opened BuildComment
  import PyStr

  const BuildFailedMessage := "Something happened while trying to build this package on koji: \n "
  const UploadFailedMessage := "Something happened while uploading the files:\n "

  /** The command line as argparse leaves it (`--user` and `--debug` play
      no part in what is modelled). */
  datatype Args = Args(specfile: string, srpmfile: string, kojiTarget: string, noBuild: bool)

  /** What the collaborators outside the model answer during one run. */
  datatype Environment = Environment(
    user: string,          // from the Fedora certificate, or typed in
    name: string,          // rpm header tag 1000
    summary: string,       // rpm header tag 1004
    description: string,   // rpm header tag 1005
    buildOutput: string,   // stdout of `koji build --scratch`
    buildCode: int,        // its exit status
    uploadOutput: string,  // stdout of `scp`
    uploadCode: int,       // its exit status
    bugId: nat)            // the id Bugzilla gives the new ticket

  /** A call to something outside the model. */
  datatype Call =
    | ScratchBuild(target: string)
    | Upload(specfile: string, srpmfile: string, destination: string)
    | CreateBug(data: BugData)
    | AddComment(bugId: nat, comment: string)

  /** The scratch build call, when the run makes one. */
  function BuildCalls(args: Args): seq<Call> {
    if args.noBuild then [] else [ScratchBuild(args.kojiTarget)]
  }

  /** The run gets past the build step. */
  predicate BuildPassed(args: Args, env: Environment) {
    args.noBuild || env.buildCode == 0
  }

  /** The calls one run makes and how it ends. */
  datatype Run = Run(calls: seq<Call>, outcome: Result<nat, Error>)

  /** `rest` preceded by the calls `first`. */
  function Then(first: seq<Call>, rest: Run): Run {
    Run(first + rest.calls, rest.outcome)
  }

  /** The run of `main` for the given command line and answers, with
      `target` the upload target of the settings: steps in order, the
      first failure ending the run. */
  function ExpectedRun(args: Args, env: Environment, target: string): Run {
    if !BuildPassed(args, env) then
      Run([ScratchBuild(args.kojiTarget)], Failure(FedoraCreateReviewError(BuildFailedMessage + env.buildOutput)))
    else Then(BuildCalls(args), UploadStage(args, env, target))
  }

  /** The run from the upload on. */
  function UploadStage(args: Args, env: Environment, target: string): Run {
    var upload := [Upload(args.specfile, args.srpmfile, target)];
    if env.uploadCode != 0 then
      Run(upload, Failure(FedoraCreateReviewError(UploadFailedMessage + env.uploadOutput)))
    else Then(upload, TicketStage(args, env, target))
  }

  /** The run from the URLs on: the ticket is filed once both URLs are
      known. */
  function TicketStage(args: Args, env: Environment, target: string): Run {
    match FileUrl(env.user, target, args.specfile)
    case Failure(e) => Run([], Failure(e))
    case Success(specUrl) =>
      match FileUrl(env.user, target, args.srpmfile)
      case Failure(e) => Run([], Failure(e))
      case Success(srpmUrl) =>
        Then([CreateBug(ReviewTicket(env.name, env.summary, specUrl, srpmUrl, env.description))], CommentStage(args, env))
  }

  /** The end of the run once the ticket exists: after a scratch build,
      the comment naming its task URL. */
  function CommentStage(args: Args, env: Environment): Run {
    if args.noBuild then Run([], Success(env.bugId))
    else
      match TaskUrl(env.buildOutput)
      case Failure(e) => Run([], Failure(e))
      case Success(url) => Run([AddComment(env.bugId, CommentPrefix + Render(url))], Success(env.bugId))
  }

  /** `info` once `main` has stored the three rpm header entries. */
  function HeaderInfo(info: map<string, string>, env: Environment): map<string, string> {
    info["summary" := env.summary]["description" := env.description]["name" := env.name]
  }

  /** `info` after `fill_urls`: the spec URL is stored first, so a src.rpm
      path that raises leaves it behind; a bad target or spec path leaves
      `info` as it was. */
  function FilledUrls(info: map<string, string>, user: string, target: string, specfile: string, srpmfile: string): map<string, string> {
    match FileUrl(user, target, specfile)
    case Failure(_) => info
    case Success(specUrl) =>
      match FileUrl(user, target, srpmfile)
      case Failure(_) => info["specurl" := specUrl]
      case Success(srpmUrl) => info["specurl" := specUrl]["srpmurl" := srpmUrl]
  }

  /** `info` at the end of the run from the header entries on. */
  function InfoAfterBuild(args: Args, env: Environment, target: string, info: map<string, string>): map<string, string> {
    var header := HeaderInfo(info, env);
    if env.uploadCode != 0 then header
    else FilledUrls(header, env.user, target, args.specfile, args.srpmfile)
  }

  /** `info` at the end of a run of `main`: untouched when the build fails. */
  function InfoAfter(args: Args, env: Environment, target: string, info: map<string, string>): map<string, string> {
    if !BuildPassed(args, env) then info else InfoAfterBuild(args, env, target, info)
  }

  /** Appending calls is associative. */
  lemma AppendAssoc(a: seq<Call>, b: seq<Call>, c: seq<Call>)
    ensures (a + b) + c == a + (b + c)
  {
  }

  /** The header entries stored before `fill_urls`, with the two URLs it
      adds, make the review ticket. */
  lemma TicketOfFilledInfo(info: map<string, string>, name: string, summary: string, specUrl: string, srpmUrl: string, description: string)
    requires "name" in info && info["name"] == name
    requires "summary" in info && info["summary"] == summary
    requires "description" in info && info["description"] == description
    ensures CreateReviewRequest(info["specurl" := specUrl]["srpmurl" := srpmUrl])
      == Success(ReviewTicket(name, summary, specUrl, srpmUrl, description))
  {
    CreateReviewRequestOf(info["specurl" := specUrl]["srpmurl" := srpmUrl], name, summary, specUrl, srpmUrl, description);
  }

  class ReviewRequest {
    const settings: Settings
    var info: map<string, string>
    var specfile: string
    var srpmfile: string
    /** The calls made so far to the collaborators, oldest first. */
    var calls: seq<Call>

    constructor (settings: Settings)
      ensures this.settings == settings
      ensures info == map[] && specfile == "" && srpmfile == "" && calls == []
    {
      this.settings := settings;
      info := map[];
      specfile := "";
      srpmfile := "";
      calls := [];
    }

    /** `ReviewRequest.fill_urls` for a given user name: the spec URL is
        stored, then the src.rpm URL. A target without `public_html/` or a
        spec path without `/` raises before anything is stored; a src.rpm
        path without `/` raises after the spec URL is stored. */
    method FillUrls(user: string) returns (r: Outcome<Error>)
      modifies this`info
      ensures
        var specUrl := FileUrl(user, settings.UploadTarget(), specfile);
        var srpmUrl := FileUrl(user, settings.UploadTarget(), srpmfile);
        if specUrl.Failure? then
          r == Fail(specUrl.error) && info == old(info)
        else if srpmUrl.Failure? then
          r == Fail(srpmUrl.error) && info == old(info)["specurl" := specUrl.value]
        else
          r == Pass && info == old(info)["specurl" := specUrl.value]["srpmurl" := srpmUrl.value]
      ensures info == FilledUrls(old(info), user, settings.UploadTarget(), specfile, srpmfile)
    {
      var prefix := PublicUrlPrefix(user, settings.UploadTarget());
      if prefix.Failure? {
        return Fail(prefix.error);
      }
      var specBase := BaseName(specfile);
      if specBase.Failure? {
        return Fail(specBase.error);
      }
      info := info["specurl" := prefix.value + specBase.value];
      var srpmBase := BaseName(srpmfile);
      if srpmBase.Failure? {
        return Fail(srpmBase.error);
      }
      info := info["srpmurl" := prefix.value + srpmBase.value];
      r := Pass;
    }

    /** `ReviewRequest.main`: the optional scratch build, the upload, the
        URLs, the ticket and, after a build, the comment linking it; the
        first failing step raises and ends the run. On success the id of
        the new ticket is returned. The properties of the run are proved
        about ExpectedRun below. */
    method Execute(args: Args, env: Environment) returns (r: Result<nat, Error>)
      modifies this
      ensures specfile == args.specfile && srpmfile == args.srpmfile
      ensures calls == old(calls) + ExpectedRun(args, env, settings.UploadTarget()).calls
      ensures r == ExpectedRun(args, env, settings.UploadTarget()).outcome
      ensures info == InfoAfter(args, env, settings.UploadTarget(), old(info))
    {
      srpmfile := args.srpmfile;
      specfile := args.specfile;
      if !args.noBuild {
        calls := calls + [ScratchBuild(args.kojiTarget)];
        if env.buildCode != 0 {
          return Failure(FedoraCreateReviewError(BuildFailedMessage + env.buildOutput));
        }
      }
      ghost var target := settings.UploadTarget();
      ghost var rest := UploadStage(args, env, target);
      assert calls == old(calls) + BuildCalls(args);
      assert ExpectedRun(args, env, target) == Then(BuildCalls(args), rest);
      ghost var built := calls;
      r := AfterBuild(args, env);
      assert settings.UploadTarget() == target;
      assert calls == built + rest.calls;
      AppendAssoc(old(calls), BuildCalls(args), rest.calls);
    }

    /** The part of `main` from reading the rpm header on: the header
        entries are stored, the two files uploaded, and the ticket filed. */
    method AfterBuild(args: Args, env: Environment) returns (r: Result<nat, Error>)
      requires specfile == args.specfile && srpmfile == args.srpmfile
      modifies this`info, this`calls
      ensures calls == old(calls) + UploadStage(args, env, settings.UploadTarget()).calls
      ensures r == UploadStage(args, env, settings.UploadTarget()).outcome
      ensures info == InfoAfterBuild(args, env, settings.UploadTarget(), old(info))
    {
      info := info["summary" := env.summary];
      info := info["description" := env.description];
      info := info["name" := env.name];
      ghost var target := settings.UploadTarget();
      ghost var upload := [Upload(args.specfile, args.srpmfile, target)];
      calls := calls + [Upload(specfile, srpmfile, settings.UploadTarget())];
      if env.uploadCode != 0 {
        return Failure(FedoraCreateReviewError(UploadFailedMessage + env.uploadOutput));
      }
      ghost var rest := TicketStage(args, env, target);
      assert UploadStage(args, env, target) == Then(upload, rest);
      ghost var uploaded := calls;
      r := FileTicket(args, env);
      assert settings.UploadTarget() == target;
      assert calls == uploaded + rest.calls;
      AppendAssoc(old(calls), upload, rest.calls);
    }

    /** The part of `main` from `fill_urls` on, once the header entries are
        stored. */
    method FileTicket(args: Args, env: Environment) returns (r: Result<nat, Error>)
      requires specfile == args.specfile && srpmfile == args.srpmfile
      requires "name" in info && info["name"] == env.name
      requires "summary" in info && info["summary"] == env.summary
      requires "description" in info && info["description"] == env.description
      modifies this`info, this`calls
      ensures calls == old(calls) + TicketStage(args, env, settings.UploadTarget()).calls
      ensures r == TicketStage(args, env, settings.UploadTarget()).outcome
      ensures info == FilledUrls(old(info), env.user, settings.UploadTarget(), specfile, srpmfile)
    {
      var filled := FillUrls(env.user);
      if filled.Fail? {
        return Failure(filled.error);
      }
      ghost var target := settings.UploadTarget();
      ghost var specUrl := FileUrl(env.user, target, specfile).value;
      ghost var srpmUrl := FileUrl(env.user, target, srpmfile).value;
      TicketOfFilledInfo(old(info), env.name, env.summary, specUrl, srpmUrl, env.description);
      r := CreateAndComment(args, env, ReviewTicket(env.name, env.summary, specUrl, srpmUrl, env.description));
    }

    /** `create_review_request` on the filled `info`, which holds every
        entry it reads (so no KeyError), and the comment that follows. */
    method CreateAndComment(args: Args, env: Environment, ghost ticket: BugData) returns (r: Result<nat, Error>)
      requires CreateReviewRequest(info) == Success(ticket)
      modifies this`calls
      ensures calls == old(calls) + Then([CreateBug(ticket)], CommentStage(args, env)).calls
      ensures r == CommentStage(args, env).outcome
    {
      var data := CreateReviewRequest(info).value;
      calls := calls + [CreateBug(data)];
      r := PostComment(args, env);
      AppendAssoc(old(calls), [CreateBug(ticket)], CommentStage(args, env).calls);
    }

    /** The end of `main`: after a scratch build, `add_comment_build`
        and the comment it makes. */
    method PostComment(args: Args, env: Environment) returns (r: Result<nat, Error>)
      modifies this`calls
      ensures calls == old(calls) + CommentStage(args, env).calls
      ensures r == CommentStage(args, env).outcome
    {
      if !args.noBuild {
        var comment := AddCommentBuild(env.buildOutput);
        if comment.Failure? {
          return Failure(comment.error);
        }
        calls := calls + [AddComment(env.bugId, comment.value)];
      }
      r := Success(env.bugId);
    }
  }

  // Properties of the run.

  /** The position of a call's step in `main`. */
  function Step(c: Call): nat {
    match c
    case ScratchBuild(_) => 0
    case Upload(_, _, _) => 1
    case CreateBug(_) => 2
    case AddComment(_, _) => 3
  }

  /** Some call of `calls` belongs to step `k`. */
  predicate HasStep(calls: seq<Call>, k: nat) {
    exists i :: 0 <= i < |calls| && Step(calls[i]) == k
  }

  /** The run's URLs can be composed for both files. */
  predicate UrlsCompose(args: Args, env: Environment, target: string) {
    FileUrl(env.user, target, args.specfile).Success? && FileUrl(env.user, target, args.srpmfile).Success?
  }

  /** The calls belong to the steps `first`, `first + 1`, ... in turn. */
  predicate Consecutive(calls: seq<Call>, first: nat) {
    forall i :: 0 <= i < |calls| ==> Step(calls[i]) == first + i
  }

  /** Calls of consecutive steps, followed by a run that continues them,
      stay consecutive. */
  lemma ThenConsecutive(calls: seq<Call>, rest: Run, first: nat)
    requires Consecutive(calls, first) && Consecutive(rest.calls, first + |calls|)
    ensures Consecutive(Then(calls, rest).calls, first)
  {
    var all := Then(calls, rest).calls;
    forall i | 0 <= i < |all|
      ensures Step(all[i]) == first + i
    {
      if i >= |calls| {
        assert all[i] == rest.calls[i - |calls|];
      }
    }
  }

  /** The comment stage makes a call of step 3 at most. */
  lemma CommentStageConsecutive(args: Args, env: Environment)
    ensures Consecutive(CommentStage(args, env).calls, 3)
  {
  }

  /** The ticket stage makes calls of steps 2, 3, ... in turn. */
  lemma TicketStageConsecutive(args: Args, env: Environment, target: string)
    ensures Consecutive(TicketStage(args, env, target).calls, 2)
  {
    if UrlsCompose(args, env, target) {
      var created := [CreateBug(ReviewTicket(env.name, env.summary,
        FileUrl(env.user, target, args.specfile).value, FileUrl(env.user, target, args.srpmfile).value, env.description))];
      CommentStageConsecutive(args, env);
      ThenConsecutive(created, CommentStage(args, env), 2);
    }
  }

  /** The upload stage makes calls of steps 1, 2, ... in turn. */
  lemma UploadStageConsecutive(args: Args, env: Environment, target: string)
    ensures Consecutive(UploadStage(args, env, target).calls, 1)
  {
    if env.uploadCode == 0 {
      TicketStageConsecutive(args, env, target);
      ThenConsecutive([Upload(args.specfile, args.srpmfile, target)], TicketStage(args, env, target), 1);
    }
  }

  /** A run makes calls of consecutive steps, from the build (or the
      upload, without a build) on. */
  lemma RunConsecutive(args: Args, env: Environment, target: string)
    ensures Consecutive(ExpectedRun(args, env, target).calls, if args.noBuild then 1 else 0)
  {
    if BuildPassed(args, env) {
      UploadStageConsecutive(args, env, target);
      ThenConsecutive(BuildCalls(args), UploadStage(args, env, target), if args.noBuild then 1 else 0);
    }
  }

  /** The steps come in the order of `main`, none of them twice. */
  lemma RunInStepOrder(args: Args, env: Environment, target: string)
    ensures var calls := ExpectedRun(args, env, target).calls;
      forall i, j :: 0 <= i < j < |calls| ==> Step(calls[i]) < Step(calls[j])
  {
    RunConsecutive(args, env, target);
  }

  /** The files are uploaded exactly when the build step passes (or is
      skipped). */
  lemma UploadIffBuildPassed(args: Args, env: Environment, target: string)
    ensures HasStep(ExpectedRun(args, env, target).calls, 1) <==> BuildPassed(args, env)
  {
    var calls := ExpectedRun(args, env, target).calls;
    if BuildPassed(args, env) {
      assert Step(calls[|BuildCalls(args)|]) == 1;
    }
  }

  /** A ticket is filed exactly when the build passes, the upload succeeds
      and both URLs compose; it is then the review ticket for the package
      header and those URLs. */
  lemma TicketIffUploaded(args: Args, env: Environment, target: string)
    ensures HasStep(ExpectedRun(args, env, target).calls, 2)
      <==> BuildPassed(args, env) && env.uploadCode == 0 && UrlsCompose(args, env, target)
    ensures HasStep(ExpectedRun(args, env, target).calls, 2) ==>
      var calls := ExpectedRun(args, env, target).calls;
      calls[|BuildCalls(args)| + 1] == CreateBug(ReviewTicket(env.name, env.summary,
        FileUrl(env.user, target, args.specfile).value, FileUrl(env.user, target, args.srpmfile).value, env.description))
  {
    var calls := ExpectedRun(args, env, target).calls;
    if BuildPassed(args, env) && env.uploadCode == 0 && UrlsCompose(args, env, target) {
      assert Step(calls[|BuildCalls(args)| + 1]) == 2;
    } else if HasStep(calls, 2) {
      var i :| 0 <= i < |calls| && Step(calls[i]) == 2;
    }
  }

  /** What a run leaves in `info`: nothing new when the build fails; the
      three header entries once it passed; and, when the ticket is filed,
      entries from which `create_review_request` rebuilds exactly the
      ticket the run filed. */
  lemma InfoOfRun(args: Args, env: Environment, target: string, info: map<string, string>)
    ensures !BuildPassed(args, env) ==> InfoAfter(args, env, target, info) == info
    ensures BuildPassed(args, env) ==>
      var after := InfoAfter(args, env, target, info);
      && "name" in after && after["name"] == env.name
      && "summary" in after && after["summary"] == env.summary
      && "description" in after && after["description"] == env.description
    ensures BuildPassed(args, env) && env.uploadCode == 0 && UrlsCompose(args, env, target) ==>
      CreateReviewRequest(InfoAfter(args, env, target, info)) == Success(ReviewTicket(env.name, env.summary,
        FileUrl(env.user, target, args.specfile).value, FileUrl(env.user, target, args.srpmfile).value, env.description))
  {
    if BuildPassed(args, env) && env.uploadCode == 0 && UrlsCompose(args, env, target) {
      TicketOfFilledInfo(HeaderInfo(info, env), env.name, env.summary,
        FileUrl(env.user, target, args.specfile).value, FileUrl(env.user, target, args.srpmfile).value, env.description);
    }
  }

  /** The build comment is posted exactly when the scratch build ran and
      passed, the ticket was filed and the task URL scan did not raise; the
      run then starts with the build, ends with the comment, and the
      comment names the URL of the last task line. */
  lemma CommentIffBuilt(args: Args, env: Environment, target: string)
    ensures HasStep(ExpectedRun(args, env, target).calls, 3)
      <==> && !args.noBuild && env.buildCode == 0 && env.uploadCode == 0
           && UrlsCompose(args, env, target) && TaskUrl(env.buildOutput).Success?
    ensures HasStep(ExpectedRun(args, env, target).calls, 3) ==>
      var calls := ExpectedRun(args, env, target).calls;
      && calls[0] == ScratchBuild(args.kojiTarget)
      && calls[|calls| - 1] == AddComment(env.bugId, CommentPrefix + Render(TaskUrl(env.buildOutput).value))
  {
    var calls := ExpectedRun(args, env, target).calls;
    if !args.noBuild && env.buildCode == 0 && env.uploadCode == 0
      && UrlsCompose(args, env, target) && TaskUrl(env.buildOutput).Success? {
      assert |calls| == 4;
      assert Step(calls[3]) == 3;
    } else {
      RunConsecutive(args, env, target);
      RunBeforeComment(args, env, target);
    }
  }

  /** Without every condition for the comment, the run stops before it:
      it has fewer calls than would reach the comment step. */
  lemma RunBeforeComment(args: Args, env: Environment, target: string)
    requires !(&& !args.noBuild && env.buildCode == 0 && env.uploadCode == 0
               && UrlsCompose(args, env, target) && TaskUrl(env.buildOutput).Success?)
    ensures |ExpectedRun(args, env, target).calls| <= if args.noBuild then 2 else 3
  {
    if BuildPassed(args, env) && env.uploadCode == 0 && UrlsCompose(args, env, target) {
      assert |CommentStage(args, env).calls| == 0;
    }
  }

  /** The run succeeds, with the id of the new ticket, exactly when every
      step succeeds; a failing run ends with the build or upload error or
      with IndexError from the URLs or the task line. */
  lemma RunOutcome(args: Args, env: Environment, target: string)
    ensures ExpectedRun(args, env, target).outcome.Success?
      <==> && BuildPassed(args, env) && env.uploadCode == 0 && UrlsCompose(args, env, target)
           && (args.noBuild || TaskUrl(env.buildOutput).Success?)
    ensures ExpectedRun(args, env, target).outcome.Success? ==> ExpectedRun(args, env, target).outcome.value == env.bugId
    ensures ExpectedRun(args, env, target).outcome.Failure? ==>
      var e := ExpectedRun(args, env, target).outcome.error;
      || e == FedoraCreateReviewError(BuildFailedMessage + env.buildOutput)
      || e == FedoraCreateReviewError(UploadFailedMessage + env.uploadOutput)
      || e == IndexError
  {
    FileUrlSpec(env.user, target, args.specfile);
    FileUrlSpec(env.user, target, args.srpmfile);
  }

  // The end-to-end runs, with the built-in upload target.

  /** The example package: `foo`, its files in the current directory,
      built for rawhide; koji reports the task at `task`. The literals in
      these scenarios are written as concatenations, matching the shapes the
      lemmas produce, which keeps the proofs cheap for the solver. */
  const FooArgs := Args("./" + "foo.spec", "./" + "foo-1.0-1.src.rpm", "rawhide", false)

  /** The answers for the example package: its header, a koji output
      naming `task`, and the upload status. */
  function FooEnv(user: string, task: string, uploadCode: int): Environment {
    Environment(user, "foo", "Foo library", "A foo library.", "Task info:" + (" " + task), 0, "lost connection", uploadCode, 1)
  }

  /** The ticket filed for the example package. */
  function FooTicket(user: string): BugData {
    ReviewTicket("foo", "Foo library", "http://" + user + ".fedorapeople.org//" + "foo.spec",
      "http://" + user + ".fedorapeople.org//" + "foo-1.0-1.src.rpm", "A foo library.")
  }

  /** The URLs of the example files under the default target. */
  lemma FooUrls(user: string)
    ensures FileUrl(user, DefaultUploadTarget, FooArgs.specfile) == Success("http://" + user + ".fedorapeople.org//" + "foo.spec")
    ensures FileUrl(user, DefaultUploadTarget, FooArgs.srpmfile) == Success("http://" + user + ".fedorapeople.org//" + "foo-1.0-1.src.rpm")
  {
    DefaultTargetFileUrl(user, "./", "foo.spec");
    DefaultTargetFileUrl(user, "./", "foo-1.0-1.src.rpm");
  }

  /** A koji output of one line `Task info: <task>` gives the task URL with
      the blank before it. */
  lemma KojiTaskLine(task: string)
    requires !PyStr.Contains(task, TaskSeparator) && '\n' !in task
    ensures TaskUrl("Task info:" + (" " + task)) == Success(Some(" " + task))
  {
    var line := "Task info:" + (" " + task);
    assert '\n' !in line;
    PyStr.NotContainsFirstChar(line, "\n");
    assert Lines(line) == [] + [line] + [];
    PyStr.NotContainsAfterChar(' ', task, TaskSeparator);
    TaskLineUrl(" " + task);
    LastTaskLineWins(line, [], line, []);
  }

  /** Build, upload and ticket succeed: the ticket reads
      `Review Request: foo - Foo library` and the comment that follows names
      the koji task (for instance `http://koji/456`), with the blank after
      `Task info:` kept. */
  lemma ScenarioBuildAndFile(user: string, task: string)
    requires !PyStr.Contains(task, TaskSeparator) && '\n' !in task
    ensures ExpectedRun(FooArgs, FooEnv(user, task, 0), DefaultUploadTarget) == Run(
      [ ScratchBuild("rawhide"),
        Upload(FooArgs.specfile, FooArgs.srpmfile, DefaultUploadTarget),
        CreateBug(FooTicket(user)),
        AddComment(1, "This package built on koji: " + (" " + task)) ],
      Success(1))
    ensures FooTicket(user).shortDesc == "Review Request: " + "foo" + " - " + "Foo library"
  {
    FooUploadStage(user, task);
    FooBuildStep(user, task);
    ThenOne(ScratchBuild("rawhide"), UploadStage(FooArgs, FooEnv(user, task, 0), DefaultUploadTarget));
  }

  /** One call before a run of three gives a run of four, in that order. */
  lemma ThenOne(c: Call, rest: Run)
    requires |rest.calls| == 3
    ensures Then([c], rest) == Run([c, rest.calls[0], rest.calls[1], rest.calls[2]], rest.outcome)
  {
  }

  /** The example's run from the upload on. */
  lemma FooUploadStage(user: string, task: string)
    requires !PyStr.Contains(task, TaskSeparator) && '\n' !in task
    ensures UploadStage(FooArgs, FooEnv(user, task, 0), DefaultUploadTarget) == Run(
      [ Upload(FooArgs.specfile, FooArgs.srpmfile, DefaultUploadTarget),
        CreateBug(FooTicket(user)),
        AddComment(1, CommentPrefix + (" " + task)) ],
      Success(1))
  {
    FooTicketStage(user, task);
  }

  /** The example's build passes and the run goes on to the upload. */
  lemma FooBuildStep(user: string, task: string)
    ensures ExpectedRun(FooArgs, FooEnv(user, task, 0), DefaultUploadTarget)
      == Then([ScratchBuild("rawhide")], UploadStage(FooArgs, FooEnv(user, task, 0), DefaultUploadTarget))
  {
    assert BuildPassed(FooArgs, FooEnv(user, task, 0));
  }

  /** The example's run once both files are uploaded. */
  lemma FooTicketStage(user: string, task: string)
    requires !PyStr.Contains(task, TaskSeparator) && '\n' !in task
    ensures TicketStage(FooArgs, FooEnv(user, task, 0), DefaultUploadTarget)
      == Run([CreateBug(FooTicket(user)), AddComment(1, CommentPrefix + (" " + task))], Success(1))
  {
    var args, env := FooArgs, FooEnv(user, task, 0);
    FooUrls(user);
    KojiTaskLine(task);
    assert CommentStage(args, env) == Run([AddComment(1, CommentPrefix + (" " + task))], Success(1));
  }

  /** Without the scratch build the ticket is still filed, from the upload
      alone, and no comment follows. */
  lemma ScenarioNoBuild(user: string, task: string)
    ensures ExpectedRun(FooArgs.(noBuild := true), FooEnv(user, task, 0), DefaultUploadTarget) == Run(
      [ Upload(FooArgs.specfile, FooArgs.srpmfile, DefaultUploadTarget),
        CreateBug(FooTicket(user)) ],
      Success(1))
  {
    FooUrls(user);
  }

  /** A failed upload ends the run before any ticket is filed. */
  lemma ScenarioUploadFails(user: string, task: string)
    ensures ExpectedRun(FooArgs, FooEnv(user, task, 1), DefaultUploadTarget) == Run(
      [ ScratchBuild("rawhide"), Upload(FooArgs.specfile, FooArgs.srpmfile, DefaultUploadTarget) ],
      Failure(FedoraCreateReviewError("Something happened while uploading the files:\n " + "lost connection")))
  {
  }

  /** Paths given as bare file names, without a directory, make the URL
      step raise IndexError after the upload, so no ticket is filed. */
  lemma ScenarioBareFileNames(user: string, task: string)
    ensures ExpectedRun(Args("foo.spec", "foo-1.0-1.src.rpm", "rawhide", true), FooEnv(user, task, 0), DefaultUploadTarget) == Run(
      [ Upload("foo.spec", "foo-1.0-1.src.rpm", DefaultUploadTarget) ],
      Failure(IndexError))
  {
    var path := "foo.spec";
    assert '/' !in path;
    BaseNameSpec(path);
    DefaultTargetPrefix(user);
  }
}
