/**
 * routes/_util.py: serving a static resource. The path is resolved under
 * the root (a directory without a trailing `/` is redirected, one with it
 * serves its first existing index file), the MIME type is guessed from the
 * name without its special extensions, and the response honours
 * If-Modified-Since. The resource store, the MIME table, the clock and
 * date parsing and formatting are parameters.
 */
module RoutesUtil {
  import opened Wrappers
  import opened Strings

  type Bytes = seq<bv8>

  // strip_special

  /** One step of the reduction: the last `.`-component is dropped when the name ends with `'.' + ext`. */
  function StripOne(previous: string, ext: string): (r: string)
    ensures r <= previous
    ensures !EndsWith(previous, "." + ext) ==> r == previous
  {
    if EndsWith(previous, "." + ext) then BeforeLast(previous, '.') else previous
  }

  /** `strip_special(path, special_extensions)`: the extensions visited in order. */
  function StripSpecial(path: string, exts: seq<string>): (r: string)
    ensures r <= path
    ensures (forall i :: 0 <= i < |exts| ==> !EndsWith(path, "." + exts[i])) ==> r == path
  {
    if exts == [] then path
    else
      var next := StripOne(path, exts[0]);
      assert forall i :: 0 <= i < |exts| - 1 ==> exts[1..][i] == exts[i + 1];
      StripSpecial(next, exts[1..])
  }

  /** An extension without `.` is stripped exactly: `name.ext` becomes `name`. */
  lemma StripOneExtension(name: string, ext: string)
    requires '.' !in ext
    ensures StripOne(name + "." + ext, ext) == name
  {
    var f := name + "." + ext;
    assert f[|name| + 1..] == ext && f[|name|] == '.';
    assert EndsWith(f, "." + ext);
    assert forall j :: |name| < j < |f| ==> f[j] != '.' by {
      forall j | |name| < j < |f|
        ensures f[j] != '.'
      {
        assert f[j] == ext[j - |name| - 1];
      }
    }
    assert LastIndexOf(f, '.') == |name|;
  }

  /** Extensions are stripped in the order given: `x.js.gz` loses `.gz` and then `.js` when both are listed in that order. */
  lemma StripInOrder(name: string, inner: string, outer: string)
    requires '.' !in inner && '.' !in outer
    ensures StripSpecial(name + "." + inner + "." + outer, [outer, inner]) == name
  {
    StripOneExtension(name + "." + inner, outer);
    StripOneExtension(name, inner);
    assert [outer, inner][1..] == [inner];
  }

  // read

  /** The resources, the MIME guess (type and encoding) and the clock, as `read` and `static` see them. */
  datatype Env = Env(isDir: string -> bool, present: string -> bool, open: string -> Option<Bytes>,
                     guess: string -> (Option<string>, Option<string>),
                     parseDate: string -> Option<int>, formatDate: int -> string, mtime: int, now: string)

  /** A truthy guess: present and not empty. */
  predicate Truthy(s: Option<string>)
  {
    s.Some? && s.value != ""
  }

  /** The first index file that exists under `path`, joined to it. */
  function FirstIndex(present: string -> bool, path: string, indexFiles: seq<string>): (r: Option<string>)
    ensures r.None? <==> forall i :: 0 <= i < |indexFiles| ==> !present(PathJoin(path, indexFiles[i]))
    ensures r.Some? ==> exists i :: (0 <= i < |indexFiles| && r.value == PathJoin(path, indexFiles[i]) &&
      present(r.value) && forall j :: 0 <= j < i ==> !present(PathJoin(path, indexFiles[j])))
  {
    if indexFiles == [] then None
    else if present(PathJoin(path, indexFiles[0])) then Some(PathJoin(path, indexFiles[0]))
    else
      var r := FirstIndex(present, path, indexFiles[1..]);
      assert forall i :: 0 <= i < |indexFiles| - 1 ==> indexFiles[1..][i] == indexFiles[i + 1];
      if r.Some? then
        var k :| 0 <= k < |indexFiles| - 1 && r.value == PathJoin(path, indexFiles[1..][k]) &&
          present(r.value) && forall j :: 0 <= j < k ==> !present(PathJoin(path, indexFiles[1..][j]));
        assert forall j :: 0 <= j < k + 1 ==> !present(PathJoin(path, indexFiles[j])) by {
          forall j | 0 <= j < k + 1
            ensures !present(PathJoin(path, indexFiles[j]))
          {
            if j > 0 {
              assert indexFiles[j] == indexFiles[1..][j - 1];
            }
          }
        }
        r
      else r
  }

  /** What `read` does: redirect, no index file, a file that cannot be opened, or the headers and body. */
  datatype Read = Redirect(location: string) | NoIndex | Missing | Contents(fullpath: string, headers: seq<(string, string)>, body: Bytes)

  /** The value of the first header named `name`. */
  function Lookup(headers: seq<(string, string)>, name: string): (r: Option<string>)
    ensures r.Some? <==> exists i :: 0 <= i < |headers| && headers[i].0 == name
  {
    if headers == [] then None
    else if headers[0].0 == name then Some(headers[0].1)
    else
      assert forall i :: 0 <= i < |headers| - 1 ==> headers[1..][i] == headers[i + 1];
      Lookup(headers[1..], name)
  }

  /** The headers of a MIME guess: Content-Type and Content-Encoding, each only when guessed. */
  function TypeHeaders(guessed: (Option<string>, Option<string>)): (r: seq<(string, string)>)
    ensures forall i :: 0 <= i < |r| ==> r[i].0 == "Content-Type" || r[i].0 == "Content-Encoding"
    ensures Lookup(r, "Content-Type") == if Truthy(guessed.0) then guessed.0 else None
    ensures Lookup(r, "Content-Encoding") == if Truthy(guessed.1) then guessed.1 else None
  {
    (if Truthy(guessed.0) then [("Content-Type", guessed.0.value)] else []) +
    (if Truthy(guessed.1) then [("Content-Encoding", guessed.1.value)] else [])
  }

  /** A path naming a directory: one that ends in `/`. */
  predicate DirPath(path: string)
  {
    path != [] && path[|path| - 1] == '/'
  }

  /**
   * `read(root, filepath, index_files, special_extensions)`. The root is
   * never empty (`static` joins it to `.`), so neither is the path.
   */
  function ReadFile(env: Env, root: string, filepath: string, indexFiles: seq<string>, exts: seq<string>): (r: Read)
    requires root != []
    ensures var path := PathJoin(root, filepath);
      (r.Redirect? <==> env.isDir(path) && !DirPath(path)) &&
      (r.Redirect? ==> r.location == filepath + "/") &&
      (r.NoIndex? <==> DirPath(path) && FirstIndex(env.present, path, indexFiles).None?) &&
      (r.Contents? && !DirPath(path) ==> r.fullpath == path) &&
      (r.Contents? && DirPath(path) ==> FirstIndex(env.present, path, indexFiles) == Some(r.fullpath))
    ensures r.Contents? ==> env.open(r.fullpath) == Some(r.body)
    ensures r.Contents? ==> r.headers == TypeHeaders(env.guess(StripSpecial(r.fullpath, exts)))
  {
    var path := PathJoin(root, filepath);
    if env.isDir(path) && !DirPath(path) then Redirect(filepath + "/")
    else
      var fullpath := if !DirPath(path) then Some(path) else FirstIndex(env.present, path, indexFiles);
      if fullpath.None? then NoIndex
      else match env.open(fullpath.value)
        case None => Missing
        case Some(body) => Contents(fullpath.value, TypeHeaders(env.guess(StripSpecial(fullpath.value, exts))), body)
  }

  // static

  /** A reply: a redirect (HTTPFound), HTTPNotFound, a response, or an exception that escapes. */
  datatype Reply = Found(location: string) | NotFound | Response(status: nat, headers: seq<(string, string)>, body: Bytes) | Failed(error: string)

  /**
   * The date the request's If-Modified-Since header names: none without a
   * non-empty header; TypeError when the date does not parse, since
   * `time.mktime(None)` raises before the `is not None` test.
   */
  function Conditional(env: Env, request: map<string, string>): (r: Option<Result<int>>)
    ensures r.Some? <==> "if-modified-since" in request && request["if-modified-since"] != ""
    ensures r.Some? && r.value.Err? ==> r.value.error == "TypeError"
  {
    if "if-modified-since" in request && request["if-modified-since"] != "" then
      match env.parseDate(Strip(Split(request["if-modified-since"], ";")[0]))
      case None => Some(Err("TypeError"))
      case Some(since) => Some(Ok(since))
    else None
  }

  /**
   * The reply to what `read` gave, with the request's If-Modified-Since
   * date `since`; `honour` says whether a resource modified after that
   * date is sent again.
   */
  function Answer(honour: bool, env: Env, since: Option<Result<int>>, read: Read): (r: Reply)
    ensures read.Redirect? ==> r == Found(read.location)
    ensures read.NoIndex? || read.Missing? ==> r == NotFound
    ensures r.Failed? <==> read.Contents? && since.Some? && since.value.Err?
    ensures r.Failed? ==> since == Some(Err(r.error))
    ensures r.Response? ==> (r.status == 200 && r.body == read.body) || (r.status == 304 && r.body == [])
    ensures r.Response? && r.status == 304 ==> since.Some? && since.value.Ok?
  {
    match read
    case Redirect(location) => Found(location)
    case NoIndex => NotFound
    case Missing => NotFound
    case Contents(_, headers, body) =>
      var hs := headers + [("Content-Length", NatToString(|body|)), ("Last-Modified", env.formatDate(env.mtime))];
      match since
      case None => Response(200, hs, body)
      case Some(Err(e)) => Failed(e)
      case Some(Ok(date)) =>
        if date >= env.mtime then Response(304, hs + [("Date", env.now)], [])
        else if honour then Response(200, hs, body)
        else Response(304, hs, [])
  }

  /**
   * `static`, with `honour` choosing between the code as written and as
   * intended: a redirect only to `filepath/`; a response or an exception
   * only for a file that was read, whose body the response carries, or
   * none; the only exception the TypeError of an unparsable date.
   */
  function StaticWith(honour: bool, env: Env, request: map<string, string>, root: string, filepath: string,
                      indexFiles: seq<string>, exts: seq<string>): (r: Reply)
    ensures var read := ReadFile(env, PathJoin(".", root), filepath, indexFiles, exts);
      (r.Found? <==> read.Redirect?) && (r.Found? ==> r.location == filepath + "/") &&
      (r.Response? || r.Failed? <==> read.Contents?) &&
      (r.Response? ==> env.open(read.fullpath) == Some(read.body) && (r.body == read.body || r.body == [])) &&
      (r.Failed? ==> r.error == "TypeError")
  {
    Answer(honour, env, Conditional(env, request), ReadFile(env, PathJoin(".", root), filepath, indexFiles, exts))
  }

  /**
   * `static(headers, root, filepath, index_files, special_extensions)` as
   * written: with an If-Modified-Since header the reply is 304, even for
   * a date before the modification time.
   */
  function StaticAsWritten(env: Env, request: map<string, string>, root: string, filepath: string,
                           indexFiles: seq<string>, exts: seq<string>): Reply
  {
    StaticWith(false, env, request, root, filepath, indexFiles, exts)
  }

  /**
   * `static` as its documentation intends: a resource modified after the
   * If-Modified-Since date is sent again with 200, as section 3.3 of
   * RFC 7232 requires.
   */
  function Static(env: Env, request: map<string, string>, root: string, filepath: string,
                  indexFiles: seq<string>, exts: seq<string>): Reply
  {
    StaticWith(true, env, request, root, filepath, indexFiles, exts)
  }

  /**
   * What a file that was read is answered with: 200 and the body without
   * a usable If-Modified-Since; 304 without a body, dated, when the
   * resource has not changed since that date; 200 and the body again when
   * it has. Every response carries the body's length and the
   * modification time.
   */
  lemma StaticReplies(env: Env, request: map<string, string>, root: string, filepath: string,
                      indexFiles: seq<string>, exts: seq<string>)
    ensures var read := ReadFile(env, PathJoin(".", root), filepath, indexFiles, exts);
      var since := Conditional(env, request);
      var r := Static(env, request, root, filepath, indexFiles, exts);
      (read.Redirect? ==> r == Found(filepath + "/")) &&
      (read.NoIndex? || read.Missing? ==> r == NotFound) &&
      (read.Contents? ==>
        (since.None? ==> r.Response? && r.status == 200 && r.body == read.body) &&
        (since == Some(Err("TypeError")) ==> r == Failed("TypeError")) &&
        (since.Some? && since.value.Ok? && since.value.value >= env.mtime ==>
          r.Response? && r.status == 304 && r.body == [] && Lookup(r.headers, "Date") == Some(env.now)) &&
        (since.Some? && since.value.Ok? && since.value.value < env.mtime ==>
          r.Response? && r.status == 200 && r.body == read.body) &&
        (r.Response? ==>
          Lookup(r.headers, "Content-Length") == Some(NatToString(|read.body|)) &&
          Lookup(r.headers, "Last-Modified") == Some(env.formatDate(env.mtime))))
  {
    var read := ReadFile(env, PathJoin(".", root), filepath, indexFiles, exts);
    var since := Conditional(env, request);
    assert Static(env, request, root, filepath, indexFiles, exts) == Answer(true, env, since, read);
    if read.Contents? {
      AnswerHeaders(true, env, since, read);
    }
  }

  /** Every response to a file that was read carries its length and the modification time, and a 304 its date. */
  lemma AnswerHeaders(honour: bool, env: Env, since: Option<Result<int>>, read: Read)
    requires read.Contents? && forall i :: 0 <= i < |read.headers| ==> read.headers[i].0 == "Content-Type" || read.headers[i].0 == "Content-Encoding"
    ensures var r := Answer(honour, env, since, read);
      r.Response? ==>
        Lookup(r.headers, "Content-Length") == Some(NatToString(|read.body|)) &&
        Lookup(r.headers, "Last-Modified") == Some(env.formatDate(env.mtime)) &&
        (r.status == 304 && since.Some? && since.value.Ok? && since.value.value >= env.mtime ==> Lookup(r.headers, "Date") == Some(env.now))
  {
    var th := read.headers;
    var tail := [("Content-Length", NatToString(|read.body|)), ("Last-Modified", env.formatDate(env.mtime))];
    var dated := tail + [("Date", env.now)];
    if since.Some? && since.value.Ok? && since.value.value >= env.mtime {
      assert Answer(honour, env, since, read).headers == th + dated by {
        assert (th + tail) + [("Date", env.now)] == th + dated;
      }
      LookupAfter(th, dated, "Content-Length");
      LookupAfter(th, dated, "Last-Modified");
      LookupAfter(th, dated, "Date");
      LookupAfter(tail, [("Date", env.now)], "Date");
    } else {
      LookupAfter(th, tail, "Content-Length");
      LookupAfter(th, tail, "Last-Modified");
    }
  }

  /** Headers that come after others not named `name` are found as if alone. */
  lemma {:induction false} LookupAfter(front: seq<(string, string)>, back: seq<(string, string)>, name: string)
    requires forall i :: 0 <= i < |front| ==> front[i].0 != name
    ensures Lookup(front + back, name) == Lookup(back, name)
  {
    if front != [] {
      assert (front + back)[1..] == front[1..] + back;
      LookupAfter(front[1..], back, name);
    } else {
      assert front + back == back;
    }
  }

  /**
   * A resource changed after the client's copy (its If-Modified-Since
   * date is before the modification time) is answered 304 as written,
   * so the client keeps its stale copy; as intended it is sent again.
   */
  lemma StaleCopyKept(env: Env, request: map<string, string>, root: string, filepath: string,
                      indexFiles: seq<string>, exts: seq<string>)
    requires ReadFile(env, PathJoin(".", root), filepath, indexFiles, exts).Contents?
    requires Conditional(env, request).Some? && Conditional(env, request).value.Ok?
    requires Conditional(env, request).value.value < env.mtime
    ensures StaticAsWritten(env, request, root, filepath, indexFiles, exts).Response?
    ensures StaticAsWritten(env, request, root, filepath, indexFiles, exts).status == 304
    ensures StaticAsWritten(env, request, root, filepath, indexFiles, exts).body == []
    ensures Static(env, request, root, filepath, indexFiles, exts).Response?
    ensures Static(env, request, root, filepath, indexFiles, exts).status == 200
  {
    var read := ReadFile(env, PathJoin(".", root), filepath, indexFiles, exts);
    var since := Conditional(env, request);
    assert StaticAsWritten(env, request, root, filepath, indexFiles, exts) == Answer(false, env, since, read);
    assert Static(env, request, root, filepath, indexFiles, exts) == Answer(true, env, since, read);
    AnswerStale(env, since.value.value, read);
  }

  /** What `honour` changes: a file modified after the client's date. */
  lemma AnswerStale(env: Env, date: int, read: Read)
    requires read.Contents? && date < env.mtime
    ensures Answer(false, env, Some(Ok(date)), read).Response?
    ensures Answer(false, env, Some(Ok(date)), read).status == 304
    ensures Answer(false, env, Some(Ok(date)), read).body == []
    ensures Answer(true, env, Some(Ok(date)), read) == Answer(false, env, None, read)
  {
  }
}
