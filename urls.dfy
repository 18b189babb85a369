/** The public URLs of the uploaded spec and src.rpm files
    (`ReviewRequest.fill_urls`, without the user lookup): the part of the
    upload target after `public_html/` becomes a path under the user's
    fedorapeople.org space, followed by the file's base name. */
module Urls {
  import opened Wrappers
  import opened Exceptions
  import opened PyStr
  import Config

  const PublicHtml := "public_html/"
  const Scheme := "http://"
  const PeopleDomain := ".fedorapeople.org/"

  /** `upload_target.split('public_html/')[1]`. */
  function ComplementUrl(target: string): Result<string, Error> {
    SplitSecond(target, PublicHtml)
  }

  /** `'http://%s.fedorapeople.org/%s/' % (user, complement_url)`. */
  function PublicUrlPrefix(user: string, target: string): Result<string, Error> {
    match ComplementUrl(target)
    case Failure(e) => Failure(e)
    case Success(c) => Success(Scheme + user + PeopleDomain + c + "/")
  }

  /** `path.rsplit('/', 1)[1]`. */
  function BaseName(path: string): Result<string, Error> {
    Second(RSplitOnce(path, '/'))
  }

  /** The URL of one uploaded file: the prefix is computed first, so a bad
      target raises before a bad path is looked at. */
  function FileUrl(user: string, target: string, path: string): Result<string, Error> {
    match PublicUrlPrefix(user, target)
    case Failure(e) => Failure(e)
    case Success(prefix) =>
      match BaseName(path)
      case Failure(e) => Failure(e)
      case Success(base) => Success(prefix + base)
  }

  /** The prefix raises IndexError exactly when the target has no
      `public_html/`; otherwise it is `http://<user>.fedorapeople.org/`,
      the text between the first `public_html/` and the next one (or the
      end), and `/`. */
  lemma PublicUrlPrefixSpec(user: string, target: string)
    ensures PublicUrlPrefix(user, target).Failure? <==> !Contains(target, PublicHtml)
    ensures PublicUrlPrefix(user, target).Failure? ==> PublicUrlPrefix(user, target).error == IndexError
    ensures PublicUrlPrefix(user, target).Success? ==>
      exists j: nat, e: nat ::
        && BoundsSecondPiece(target, PublicHtml, j, e)
        && PublicUrlPrefix(user, target).value
             == "http://" + user + ".fedorapeople.org/" + target[j + |PublicHtml|..e] + "/"
  {
    SplitSecondSpec(target, PublicHtml);
  }

  /** With the built-in target `fedorapeople.org:public_html/` the segment
      is empty, so the prefix ends in two slashes. */
  lemma DefaultTargetPrefix(user: string)
    ensures PublicUrlPrefix(user, Config.DefaultUploadTarget) == Success("http://" + user + ".fedorapeople.org//")
  {
    var t := Config.DefaultUploadTarget;
    DefaultTargetSplit();
    assert Split(t, PublicHtml) == [t[..17]] + Split(t[17 + |PublicHtml|..], PublicHtml);
    assert t[17 + |PublicHtml|..] == "";
    assert Find("", PublicHtml).None?;
    assert ComplementUrl(t) == Success("");
    assert Scheme + user + PeopleDomain + "" + "/" == "http://" + user + ".fedorapeople.org//";
  }

  /** `public_html/` first occurs in the built-in target at its end. */
  lemma DefaultTargetSplit()
    ensures Find(Config.DefaultUploadTarget, PublicHtml) == Some(17)
  {
    var t := Config.DefaultUploadTarget;
    assert t[17..] == PublicHtml;
    assert OccursAt(t, PublicHtml, 17);
    // an occurrence before 17 would end with a `/` inside this window,
    // which has none
    var window := t[11..28];
    assert window == "e.org:public_html";
    assert '/' !in window;
    forall k | 0 <= k < 17
      ensures !OccursAt(t, PublicHtml, k)
    {
      assert t[k + 11] == window[k];
      assert t[k..k + 12][11] == t[k + 11];
    }
    FindIsFirst(t, PublicHtml, 17);
  }

  /** The base name raises IndexError exactly when the path has no `/`;
      otherwise it is the text after the last `/`. */
  lemma BaseNameSpec(path: string)
    ensures BaseName(path).Failure? <==> '/' !in path
    ensures BaseName(path).Failure? ==> BaseName(path).error == IndexError
    ensures BaseName(path).Success? ==>
      var base := BaseName(path).value;
      '/' !in base && |base| < |path| && path == path[..|path| - |base| - 1] + "/" + base
  {
    RSplitSecondSpec(path, '/');
  }

  /** The base name of `dir + file` is `file`, when `dir` ends with `/`
      and the file name has none. */
  lemma BaseNameAfterDir(dir: string, file: string)
    requires |dir| > 0 && dir[|dir| - 1] == '/' && '/' !in file
    ensures BaseName(dir + file) == Success(file)
  {
    var d := dir[..|dir| - 1];
    assert dir == d + "/";
    LastIndexOfJoin(d, '/', file);
    assert dir + file == d + "/" + file;
    assert (d + "/" + file)[|d| + 1..] == file;
  }

  /** With the built-in target, the URL of `dir + file` is the user's
      `public_html/` URL followed by `file`. */
  lemma DefaultTargetFileUrl(user: string, dir: string, file: string)
    requires |dir| > 0 && dir[|dir| - 1] == '/' && '/' !in file
    ensures FileUrl(user, Config.DefaultUploadTarget, dir + file) == Success("http://" + user + ".fedorapeople.org//" + file)
  {
    DefaultTargetPrefix(user);
    BaseNameAfterDir(dir, file);
  }

  /** A file URL is the common prefix followed by the base name; it fails
      when the target or the path does not have the expected shape, with
      the target checked first. */
  lemma FileUrlSpec(user: string, target: string, path: string)
    ensures FileUrl(user, target, path).Failure? <==> !Contains(target, PublicHtml) || '/' !in path
    ensures FileUrl(user, target, path).Failure? ==> FileUrl(user, target, path).error == IndexError
    ensures FileUrl(user, target, path).Success? ==>
      && PublicUrlPrefix(user, target).Success?
      && BaseName(path).Success?
      && FileUrl(user, target, path).value == PublicUrlPrefix(user, target).value + BaseName(path).value
  {
    PublicUrlPrefixSpec(user, target);
    BaseNameSpec(path);
  }

  /** Two files uploaded to the same target get URLs that differ only in
      their base names. */
  lemma SharedPrefix(user: string, target: string, spec: string, srpm: string)
    requires FileUrl(user, target, spec).Success? && FileUrl(user, target, srpm).Success?
    ensures
      var p := PublicUrlPrefix(user, target).value;
      && FileUrl(user, target, spec).value[..|p|] == p
      && FileUrl(user, target, srpm).value[..|p|] == p
      && FileUrl(user, target, spec).value[|p|..] == BaseName(spec).value
      && FileUrl(user, target, srpm).value[|p|..] == BaseName(srpm).value
  {
    FileUrlSpec(user, target, spec);
    FileUrlSpec(user, target, srpm);
  }
}
