# fedora-create-review, modelled in Dafny

`fedora-create-review` files a Fedora package review request.

Given a spec file and a src.rpm, it goes through these steps:

1. It optionally starts a koji scratch build.
2. It uploads both files to the user's `public_html/` space on fedorapeople.org.
3. It composes the public URLs of the two files.
4. It files a "Review Request" ticket in Bugzilla. The ticket's summary line and first comment are built from the package header and those URLs.
5. After a build, it adds a comment that links the koji task, whose URL is read from koji's output.

Settings come from an INI file with one known option, `upload_target`. The file is created with the default the first time the script runs.

This project models that logic and proves properties of it. It has these modules:

- `PyStr` (`pystr.dfy`) models the Python string operations the script relies on:
  - `sub in s`;
  - `s.split(sep)`, and `[1]` on its result, which raises IndexError;
  - `s.rsplit(c, 1)`.
- `BuildComment` (`build_comment.dfy`) models `add_comment_build`.
  - It is a loop over the lines of the koji output that keeps the URL of the last `Task info` line.
  - A method is proved against a declarative description: the URL of the last task line, or IndexError when some task line lacks `Task info:`.
- `Urls` (`urls.dfy`) models the string part of `fill_urls`: the URL prefix taken from the upload target, and the base names of the two paths.
- `Ticket` (`ticket.dfy`) models the data passed to `createbug`:
  - the fixed product and component fields;
  - `Review Request: <name> - <summary>`;
  - the `BUG_COMMENT` template.

  Parsers that read the two texts back show that the templates lose nothing, for package names without blanks (rpm names have none) and URLs without line breaks. Without that condition, a name `a - b` with summary `c` and a name `a` with summary `b - c` give the same summary line.
- `Config` (`config.dfy`) models `Settings` and the `ConfigParser` it drives.
  - `populate` is a loop over the known options. It updates the parser's section and the object's attributes.
  - `load_config`/`create_conf` decide whether the populated section is written back.
- `Review` (`review_request.dfy`) models the `ReviewRequest` class and `main`.
  - Each call the script makes to koji, scp or Bugzilla is recorded, in order, in the field `calls`.
  - Those collaborators' answers are inputs: an `Environment`.
  - `ExpectedRun` states which calls a run makes and how it ends. The method is proved to make exactly those calls and to return exactly that outcome.
  - Lemmas about `ExpectedRun` give:
    - the order of the steps;
    - the conditions under which a run uploads, files a ticket and comments;
    - the end-to-end scenarios.
- `Wrappers` and `Exceptions` (`wrappers.dfy`) hold `Option`, `Result` and `Outcome`, and the Python exceptions the script can raise.

Some of the code's behaviour is easy to misread; the model keeps it as written:

- **The task URL keeps a leading blank.** The URL is the text after the first `Task info:` on the line, up to a second `Task info:` if there is one. For the usual koji line `Task info: http://…` it starts with a blank, and the comment carries that blank.
- **A build output without a task line gives a comment naming `None`.** The comment is then `This package built on koji: None`. This is how `%s` renders Python's `None`.
- **Paths must contain a `/`.** A spec or src.rpm path without a `/`, such as `foo.spec`, makes `rsplit('/', 1)[1]` raise IndexError. This happens after the upload and before a ticket is filed (`Review.ScenarioBareFileNames`). The end-to-end scenarios are therefore stated with `./foo.spec`.
- **The settings file is written only if it did not exist.** A file that exists but lacks the section or the option is not rewritten.

## Model

| member | source | states |
|---|---|---|
| `PyStr.FindFrom` | fedora-create-review.py:174 | the index returned holds an occurrence of `sub` and none comes earlier; None means no occurrence at or after `from` |
| `PyStr.ContainsIff` | fedora-create-review.py:174 | `PyStr.Contains` is `sub in s`; it holds exactly when `sub` occurs at some index of `s` |
| `PyStr.Split` | fedora-create-review.py:173 | `split` gives at least one piece, and more than one exactly when the separator occurs |
| `PyStr.SplitJoin` | fedora-create-review.py:173 | joining the pieces of a split with the separator gives back the original string |
| `PyStr.SplitPiecesLackSeparator` | fedora-create-review.py:173 | no piece of a split contains the separator |
| `PyStr.SplitSecondSpec` | fedora-create-review.py:175 | `PyStr.SplitSecond` is `split(sep)[1]`; it raises IndexError exactly when `sep` is absent; otherwise it is the text after the first `sep` up to the next `sep` or the end |
| `PyStr.LastIndexOf` | fedora-create-review.py:224-225 | the index found holds `c` and no `c` follows it; None exactly when `c` is absent |
| `PyStr.RSplitSecondSpec` | fedora-create-review.py:224-225 | `PyStr.RSplitOnce` is `rsplit(c, 1)` and `PyStr.Second` takes its `[1]`; `rsplit(c, 1)[1]` raises IndexError exactly when `c` is absent; otherwise it is the `c`-free tail after the last `c` |
| `PyStr.LastIndexOfJoin` | fedora-create-review.py:224-225 | in `dir + c + file`, where `file` has no `c`, the last `c` is the one between `dir` and `file` |
| `BuildComment.LastTaskLine` | fedora-create-review.py:173-175 | the index found is a line containing `Task info` with no such line after it; None exactly when no line contains the marker |
| `BuildComment.LastUrlExtend` | fedora-create-review.py:173-175 | one more line: a task line without `Task info:` makes the split fail, a task line replaces the URL, and any other line keeps it |
| `BuildComment.AddCommentBuild` | fedora-create-review.py:172-176 | the scan raises IndexError exactly when some task line lacks `Task info:`; otherwise the comment is the prefix followed by the URL of the last task line, or by `None` |
| `BuildComment.NoTaskLineNoUrl` | fedora-create-review.py:172-176 | with no task line the URL is absent and the comment reads `This package built on koji: None` |
| `BuildComment.LastTaskLineWins` | fedora-create-review.py:173-175 | when a task line is followed only by lines without the marker, and no earlier task line is broken, the URL comes from that line |
| `BuildComment.BrokenTaskLineRaises` | fedora-create-review.py:174-175 | a line containing `Task info` but not `Task info:` makes the scan raise IndexError, wherever it stands |
| `BuildComment.UrlOfLineSpec` | fedora-create-review.py:175 | `BuildComment.UrlOfLine` is `line.split('Task info:')[1]` on a line that has the separator, and `BuildComment.Lines` is `output.split('\n')`; the URL of a task line is the text after its first `Task info:`, up to a second one or the end of the line |
| `BuildComment.TaskLineUrl` | fedora-create-review.py:175 | on a line that starts with `Task info:` and has no second `Task info:`, the URL is the rest of the line, blanks included |
| `BuildComment.UsualTaskLine` | fedora-create-review.py:175-176 | for `Task info: <url>`, where `url` has no `Task info:`, the extracted URL is `" " + url`, keeping the leading blank |
| `Urls.PublicUrlPrefixSpec` | fedora-create-review.py:222-223 | the prefix raises IndexError exactly when the target lacks `public_html/`; otherwise it is `http://<user>.fedorapeople.org/` + the text between the first and second `public_html/` + `/` |
| `Urls.DefaultTargetPrefix` | fedora-create-review.py:222-223 | with the class default target `fedorapeople.org:public_html/`, the prefix is `http://<user>.fedorapeople.org//` |
| `Urls.DefaultTargetSplit` | fedora-create-review.py:74 | `public_html/` first occurs in the default target at index 17, its end |
| `Urls.BaseNameSpec` | fedora-create-review.py:224-225 | the base name raises IndexError exactly when the path has no `/`; otherwise it is the `/`-free text after the last `/` |
| `Urls.BaseNameAfterDir` | fedora-create-review.py:224-225 | the base name of a directory ending in `/` followed by a `/`-free file name is that file name |
| `Urls.DefaultTargetFileUrl` | fedora-create-review.py:222-225 | with the default target, the URL of `dir/file` is `http://<user>.fedorapeople.org//file` |
| `Urls.FileUrlSpec` | fedora-create-review.py:222-225 | a file URL fails with IndexError exactly when the target lacks `public_html/` or the path lacks `/`; otherwise it is the prefix followed by the base name |
| `Urls.SharedPrefix` | fedora-create-review.py:222-225 | the spec and src.rpm URLs share the prefix and differ only in their base names |
| `Ticket.CreateReviewRequestSpec` | fedora-create-review.py:179-195 | the ticket data is built exactly when name, summary, specurl, srpmurl and description are all in `info`; otherwise it raises KeyError for the first missing one in that order; a built ticket is for Fedora / Package Review / rawhide, platform and OS `Unspecified`, severity and priority `unspecified`, an empty URL field, with the summary line and the comment made from those entries |
| `Ticket.CreateReviewRequestOf` | fedora-create-review.py:186-189 | with the five entries present, the ticket is the one made from their values |
| `Ticket.ShortDescRoundTrip` | fedora-create-review.py:186-187 | `Review Request: <name> - <summary>` parses back to the name and summary, for a name without blanks |
| `Ticket.BugCommentRoundTrip` | fedora-create-review.py:50-56 | the comment parses back to the spec URL, the SRPM URL and the description, in that order, for URLs without line breaks |
| `Config.PopulatedSpec` | fedora-create-review.py:142-149 | after `populate` every known option is in the section; a value the section had is kept; a missing one gets its default; other options are untouched |
| `Config.WithAttributesSpec` | fedora-create-review.py:142-147 | each known option the section has becomes an attribute with the section's value; no other attribute changes |
| `Config.PopulateIdempotent` | fedora-create-review.py:142-149 | populating an already populated section changes nothing |
| `Config.PersistedTargetWins` | fedora-create-review.py:93-99 | after a first run writes the default target, a later run reads that value back as the attribute, even when the built-in default has changed |
| `Config.ConfigParser.constructor` | fedora-create-review.py:91-94 | the parser holds the sections read from the file |
| `Config.ConfigParser.AddSection` | fedora-create-review.py:95-96 | a missing section is added empty; `Config.ConfigParser.HasSection` is the `has_section` guard before it |
| `Config.ConfigParser.Set` | fedora-create-review.py:147-149 | `set` stores the option in an existing section, and raises NoSectionError without change when the section is missing |
| `Config.Settings.constructor` | fedora-create-review.py:81-82 | the known options are `upload_target` with the class default, and no attribute is set yet |
| `Config.Settings.Populate` | fedora-create-review.py:131-149 | with the section present, the section becomes its populated form and the attributes gain the section's known options; with it missing, the first `set` raises NoSectionError and nothing changes |
| `Config.Settings.LoadConfig` | fedora-create-review.py:85-113 | the attributes are those the file's section gives (none for a missing file or section); the populated section is written back exactly when the file did not exist, and then holds the default target; `self.upload_target` then reads the file's value when its section has one, and is unchanged otherwise |
| `Review.TicketOfFilledInfo` | fedora-create-review.py:240-248 | the header entries stored by `main`, with the two URLs `fill_urls` adds, make the review ticket |
| `Review.ReviewRequest.constructor` | fedora-create-review.py:157-164 | a request starts with the given settings, an empty `info`, empty paths and no calls made |
| `Review.ReviewRequest.FillUrls` | fedora-create-review.py:213-225 | a bad target or a spec path without `/` raises before `info` changes; a src.rpm path without `/` raises after `specurl` is stored; otherwise both URLs are stored; in all three cases `info` becomes `FilledUrls` of the old one |
| `Review.ReviewRequest.Execute` | fedora-create-review.py:227-252 | `main` stores the two paths, makes exactly the calls of `ExpectedRun` after those made before, ends with its outcome, and leaves `info` as `InfoAfter` gives it: unchanged after a failed build, the header entries after a failed upload, and the URLs `fill_urls` stored on top of them otherwise |
| `Review.ReviewRequest.AfterBuild` | fedora-create-review.py:240-250 | from the header entries on, the calls and outcome are those of the run from the upload step, and `info` ends as `InfoAfterBuild` gives it |
| `Review.ReviewRequest.FileTicket` | fedora-create-review.py:247-250 | from `fill_urls` on, the calls and outcome are those of the run from the URL step, and `info` ends as `fill_urls` leaves it |
| `Review.ReviewRequest.CreateAndComment` | fedora-create-review.py:248-250 | with `info` holding every entry `create_review_request` reads, the ticket it builds is filed (no KeyError can occur) and the run ends as the comment step does |
| `Review.ReviewRequest.PostComment` | fedora-create-review.py:249-250 | the build comment is posted only after a build, and a broken task line raises instead |
| `Review.RunInStepOrder` | fedora-create-review.py:234-250 | the calls of a run follow the order build, upload, ticket, comment, and none happens twice |
| `Review.UploadIffBuildPassed` | fedora-create-review.py:234-246 | the files are uploaded exactly when the build is skipped or returns 0; a failed build aborts before the upload |
| `Review.TicketIffUploaded` | fedora-create-review.py:243-248 | a ticket is filed exactly when the build passed, the upload returned 0 and both URLs compose; it is the review ticket made of the header and those URLs |
| `Review.CommentIffBuilt` | fedora-create-review.py:249-250 | the build comment is posted exactly when the build ran and passed, the ticket was filed and the scan did not raise; the run then starts with the build and ends with that comment |
| `Review.RunBeforeComment` | fedora-create-review.py:249-250 | when any condition for the comment fails, the run stops short of the comment step |
| `Review.RunOutcome` | fedora-create-review.py:234-252 | a run returns the new ticket's id exactly when every step succeeds; a failure is the build error, the upload error or IndexError |
| `Review.KojiTaskLine` | fedora-create-review.py:172-176 | a one-line koji output `Task info: <task>`, where `task` has no `Task info:` and no line break, gives the task URL with the blank before it |
| `Review.InfoOfRun` | fedora-create-review.py:240-248 | a failed build leaves `info` as it was; a passed build stores the header name, summary and description; when the ticket is filed, `create_review_request` on the final `info` gives exactly the ticket the run filed |
| `Review.ScenarioBuildAndFile` | fedora-create-review.py:227-252 | for `./foo.spec` and `./foo-1.0-1.src.rpm` with the default target, a good build and upload give: build, upload, the ticket `Review Request: foo - Foo library`, then the comment naming the task; the run returns the ticket id |
| `Review.ScenarioNoBuild` | fedora-create-review.py:234-250 | with `--no-scratch-build` there is no build and no comment, and the ticket is still filed from the upload alone |
| `Review.ScenarioUploadFails` | fedora-create-review.py:243-246 | a nonzero upload status ends the run with the upload error before any ticket is filed |
| `Review.ScenarioBareFileNames` | fedora-create-review.py:224-225 | bare file names without `/` make the run raise IndexError after the upload, so no ticket is filed |
| `PyStr.NotContainsAfterChar` | fedora-create-review.py:175 | a blank before a string without `Task info:` does not create one; helper for the usual koji line |
| `BuildComment.TaskUrl` | fedora-create-review.py:172-175 | the result of the scan: IndexError on a broken task line, else the URL of the last task line or None; `BuildComment.AddCommentBuild` is proved against it and `LastTaskLineWins`, `BrokenTaskLineRaises` and `NoTaskLineNoUrl` state its cases |
| `BuildComment.Render` | fedora-create-review.py:176 | `%s` of a str-or-None value, `None` for an absent URL; stated through `BuildComment.AddCommentBuild` and `BuildComment.NoTaskLineNoUrl` |
| `Urls.PublicUrlPrefix` | fedora-create-review.py:222-223 | the URL prefix built from the upload target, where `Urls.ComplementUrl` is `upload_target.split('public_html/')[1]`; its behaviour is stated by `Urls.PublicUrlPrefixSpec` and `Urls.DefaultTargetPrefix` |
| `Urls.BaseName` | fedora-create-review.py:224-225 | `rsplit('/', 1)[1]` of a path; its behaviour is stated by `Urls.BaseNameSpec` and `Urls.BaseNameAfterDir` |
| `Urls.FileUrl` | fedora-create-review.py:222-225 | the URL of one uploaded file, the target checked before the path; its behaviour is stated by `Urls.FileUrlSpec`, `Urls.SharedPrefix` and `Urls.DefaultTargetFileUrl` |
| `Ticket.ShortDesc` | fedora-create-review.py:186-187 | the summary line `Review Request: <name> - <summary>`; `Ticket.ShortDescRoundTrip` proves it loses nothing |
| `Ticket.BugComment` | fedora-create-review.py:50-56 | the BUG_COMMENT template filled with the two URLs and the description; `Ticket.BugCommentRoundTrip` proves it loses nothing |
| `Ticket.ReviewTicket` | fedora-create-review.py:182-195 | the ticket: Fedora, Package Review, rawhide, `Unspecified` platform and OS, `unspecified` severity and priority, an empty URL field, the summary line and the comment; all ten fields are stated by `Ticket.CreateReviewRequestSpec` |
| `Ticket.CreateReviewRequest` | fedora-create-review.py:179-195 | the data dict with its lookups in literal order, each one `Ticket.Lookup`, which is `info[key]` with KeyError for a missing key; stated by `Ticket.CreateReviewRequestSpec` and `Ticket.CreateReviewRequestOf` |
| `Config.Populated` | fedora-create-review.py:142-149 | the section `populate` leaves; stated by `Config.PopulatedSpec` and `Config.PopulateIdempotent`, and `Config.Settings.Populate` is proved against it |
| `Config.WithAttributes` | fedora-create-review.py:142-147 | the attributes `populate` leaves; stated by `Config.WithAttributesSpec` and `Config.PersistedTargetWins`, and `Config.Settings.Populate` is proved against it |
| `Config.Settings.UploadTarget` | fedora-create-review.py:73-74 | `self.upload_target`: the instance attribute once `populate` set it, the class attribute otherwise; `Config.Settings.LoadConfig` states which one a settings file gives |
| `Review.ExpectedRun` | fedora-create-review.py:234-252 | the calls of one run of `main` and its outcome, the first failing step ending it; `Review.ReviewRequest.Execute` is proved against it and `Review.RunInStepOrder`, `Review.UploadIffBuildPassed`, `Review.TicketIffUploaded`, `Review.CommentIffBuilt` and `Review.RunOutcome` state its properties |
| `Review.UploadStage` | fedora-create-review.py:243-252 | the run from the upload on; `Review.ReviewRequest.AfterBuild` is proved against it and `Review.UploadIffBuildPassed` states when it is reached |
| `Review.TicketStage` | fedora-create-review.py:247-252 | the run from `fill_urls` on; `Review.ReviewRequest.FileTicket` is proved against it and `Review.TicketIffUploaded` states when it files the ticket |
| `Review.CommentStage` | fedora-create-review.py:249-252 | the run after the ticket; `Review.ReviewRequest.PostComment` is proved against it and `Review.CommentIffBuilt` states when it comments |
| `Review.InfoAfter` | fedora-create-review.py:240-248 | `info` at the end of a run, where `Review.HeaderInfo` stores the three header entries in source order (:240-242); `Review.ReviewRequest.Execute` is proved against it and `Review.InfoOfRun` states its properties |
| `Review.FilledUrls` | fedora-create-review.py:224-225 | `info` after `fill_urls`; `Review.ReviewRequest.FillUrls` is proved against it |

## Left out

- The koji and scp commands are not run. Their output and exit status are fields of `Environment`. If `Popen` raises `OSError`, the source reaches an unbound `output`; that path is not modelled.
- The src.rpm passed to `koji build` is not modelled. The source takes it from a module-level variable that is set only when the file runs as a script. `ScratchBuild` records only the koji target.
- Bugzilla is not contacted. `createbug` is recorded with the data passed to it, and `refresh` is not modelled. The new ticket's id is an input. `addcomment` is recorded with its comment text.
- The user name is a parameter. It is not read from the Fedora certificate or prompted for.
- The rpm header lookups of tags 1000, 1004 and 1005 are not made. Name, summary and description are inputs.
- `os.path.expanduser` is not modelled: paths are taken as given.
- Printing and logging are left out. On success `main` prints the new ticket's id and the ticket; `Review.ReviewRequest.Execute` returns that id instead.
- Argument parsing is reduced to the `Args` datatype. `--user` and `--debug` have no effect on what is modelled.
- The settings file is an input: whether it exists, and the sections it parses to. The model does not parse or write the INI file, nor create the directory. The text written back is the section map `LoadConfig` returns.
- These ConfigParser features are not modelled: the `DEFAULT` section, lower-casing of option names, `%` interpolation in `get`, and parse errors.
- `Settings.__getitem__` is left out: it calls a `_get_hash` method that does not exist.
- Config.Settings.constructor: models the first statement of `__init__` only (the defaults in `_dict`); the call to `load_config` that follows is left to the caller, which calls `Config.Settings.LoadConfig` itself.
- Review.ReviewRequest.constructor: takes a ready `Settings`, where `__init__` builds `Settings()` itself and so runs `load_config`. Loading is modelled by `Config.Settings.LoadConfig`, and the two are not chained.
- The `__main__` block's hard-coded paths and its top-level `except` that prints the error are left out. `Execute` returns the error instead.
