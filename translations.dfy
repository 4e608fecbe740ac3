/**
 * routes/translations.py: choosing the translation script for a request
 * from its Accept-Language header (sections 5.3.1 and 5.3.5 of RFC 7231).
 * Every comma-separated entry becomes a language tag and a quality; the
 * entries are sorted by quality, highest first, keeping header order among
 * equal qualities, and `default` with quality 0 is tried last. The first
 * language whose script exists is served. Quality parsing (`float`) and
 * the resource store are parameters; qualities are reals.
 */
module Translations {
  import opened Wrappers
  import opened Strings
  import opened Seqs

  /** A language tag and its quality. */
  type Candidate = (string, real)

  /** `float(x)`: the value, or None where it raises ValueError. */
  type ParseFloat = string -> Option<real>

  /** The tag of an entry: what comes before the first `;`, stripped. */
  function Tag(language: string): string
  {
    Strip(Split(language, ";")[0])
  }

  /** One entry of the header: its tag, and the quality after `;q=` or 1.0 without one. */
  function Entry(parse: ParseFloat, language: string): (r: Result<Candidate>)
    ensures Find(language, ";q=") < 0 ==> r == Ok((Tag(language), 1.0))
    ensures r.Err? ==> r.error == "ValueError" && Find(language, ";q=") >= 0
  {
    if Find(language, ";q=") < 0 then Ok((Tag(language), 1.0))
    else
      var pieces := Split(language, ";q=");
      assert |pieces| >= 2;
      match parse(pieces[1])
      case None => Err("ValueError")
      case Some(q) => Ok((Tag(language), q))
  }

  /** Every entry of a comma-separated header, in order; the first that fails to parse raises. */
  function Entries(parse: ParseFloat, languages: seq<string>): (r: Result<seq<Candidate>>)
    ensures r.Ok? ==> |r.value| == |languages| && forall i :: 0 <= i < |languages| ==> Entry(parse, languages[i]) == Ok(r.value[i])
    ensures r.Err? <==> exists i :: 0 <= i < |languages| && Entry(parse, languages[i]).Err?
    ensures r.Err? ==> r.error == "ValueError"
  {
    if languages == [] then Ok([])
    else match Entry(parse, languages[0])
      case Err(e) => Err(e)
      case Ok(c) =>
        var rest := Entries(parse, languages[1..]);
        assert forall i :: 1 <= i < |languages| ==> languages[1..][i - 1] == languages[i];
        match rest
        case Err(e) => Err(e)
        case Ok(cs) => Ok([c] + cs)
  }

  /** Qualities never increase along `cs`. */
  predicate Descending(cs: seq<Candidate>)
  {
    forall i, j :: 0 <= i < j < |cs| ==> cs[i].1 >= cs[j].1
  }

  /** `c` placed after every candidate of at least its quality. */
  function Insert(c: Candidate, cs: seq<Candidate>): (r: seq<Candidate>)
    ensures |r| == |cs| + 1
  {
    if cs == [] then [c]
    else if cs[0].1 >= c.1 then [cs[0]] + Insert(c, cs[1..])
    else [c] + cs
  }

  /** Insertion adds `c` and loses nothing. */
  lemma {:induction false} InsertPermutes(c: Candidate, cs: seq<Candidate>)
    ensures multiset(Insert(c, cs)) == multiset(cs) + multiset{c}
  {
    if cs != [] {
      assert cs == [cs[0]] + cs[1..];
      if cs[0].1 >= c.1 {
        InsertPermutes(c, cs[1..]);
      }
    }
  }

  /** Inserting into a sorted sequence keeps it sorted. */
  lemma {:induction false} InsertDescending(c: Candidate, cs: seq<Candidate>)
    requires Descending(cs)
    ensures Descending(Insert(c, cs))
  {
    if cs != [] && cs[0].1 >= c.1 {
      var rest := Insert(c, cs[1..]);
      InsertDescending(c, cs[1..]);
      forall k | 0 <= k < |rest|
        ensures cs[0].1 >= rest[k].1
      {
        InsertPermutes(c, cs[1..]);
        assert rest[k] in multiset(rest);
        assert rest[k] in cs[1..] || rest[k] == c;
      }
    }
  }

  /** `sorted(..., key=lambda p: p[1], reverse=True)`: insertion of each candidate in turn. */
  function Sort(cs: seq<Candidate>): (r: seq<Candidate>)
    ensures |r| == |cs|
  {
    if cs == [] then []
    else Insert(cs[|cs| - 1], Sort(cs[..|cs| - 1]))
  }

  /** The sort is a permutation. */
  lemma {:induction false} SortPermutes(cs: seq<Candidate>)
    ensures multiset(Sort(cs)) == multiset(cs)
  {
    if cs != [] {
      assert cs == cs[..|cs| - 1] + [cs[|cs| - 1]];
      SortPermutes(cs[..|cs| - 1]);
      InsertPermutes(cs[|cs| - 1], Sort(cs[..|cs| - 1]));
    }
  }

  /** The sort orders by quality, highest first. */
  lemma {:induction false} SortDescending(cs: seq<Candidate>)
    ensures Descending(Sort(cs))
  {
    if cs != [] {
      SortDescending(cs[..|cs| - 1]);
      InsertDescending(cs[|cs| - 1], Sort(cs[..|cs| - 1]));
    }
  }

  /** The candidates of quality `q`, in order. */
  function OfQuality(q: real, cs: seq<Candidate>): seq<Candidate>
  {
    if cs == [] then []
    else (if cs[0].1 == q then [cs[0]] else []) + OfQuality(q, cs[1..])
  }

  lemma {:induction false} OfQualityAppend(q: real, a: seq<Candidate>, b: seq<Candidate>)
    ensures OfQuality(q, a + b) == OfQuality(q, a) + OfQuality(q, b)
  {
    if a != [] {
      assert (a + b)[0] == a[0] && (a + b)[1..] == a[1..] + b;
      OfQualityAppend(q, a[1..], b);
      ConcatAssoc(if a[0].1 == q then [a[0]] else [], OfQuality(q, a[1..]), OfQuality(q, b));
    } else {
      assert a + b == b;
    }
  }

  lemma {:induction false} OfQualityNone(q: real, cs: seq<Candidate>)
    requires forall i :: 0 <= i < |cs| ==> cs[i].1 < q
    ensures OfQuality(q, cs) == []
  {
    if cs != [] {
      OfQualityNone(q, cs[1..]);
    }
  }

  lemma OfQualityPrepend(q: real, x: Candidate, rest: seq<Candidate>)
    ensures OfQuality(q, [x] + rest) == (if x.1 == q then [x] else []) + OfQuality(q, rest)
  {
    assert ([x] + rest)[0] == x && ([x] + rest)[1..] == rest;
  }

  /** The tail of a descending sequence is descending. */
  lemma DescendingTail(cs: seq<Candidate>)
    requires cs != [] && Descending(cs)
    ensures Descending(cs[1..])
  {
    forall i, j | 0 <= i < j < |cs| - 1
      ensures cs[1..][i].1 >= cs[1..][j].1
    {
      assert cs[1..][i] == cs[i + 1] && cs[1..][j] == cs[j + 1];
    }
  }

  /** Inserting into a sorted sequence puts `c` after every candidate of its quality. */
  lemma {:induction false} OfQualityInsert(q: real, c: Candidate, cs: seq<Candidate>)
    requires Descending(cs)
    ensures OfQuality(q, Insert(c, cs)) == OfQuality(q, cs) + (if c.1 == q then [c] else [])
  {
    if cs != [] {
      var h := if cs[0].1 == q then [cs[0]] else [];
      var t := if c.1 == q then [c] else [];
      assert cs == [cs[0]] + cs[1..];
      OfQualityPrepend(q, cs[0], cs[1..]);
      if cs[0].1 >= c.1 {
        var rest := Insert(c, cs[1..]);
        assert Insert(c, cs) == [cs[0]] + rest;
        OfQualityPrepend(q, cs[0], rest);
        DescendingTail(cs);
        OfQualityInsert(q, c, cs[1..]);
        ConcatAssoc(h, OfQuality(q, cs[1..]), t);
      } else {
        assert Insert(c, cs) == [c] + cs;
        OfQualityPrepend(q, c, cs);
        if c.1 == q {
          assert forall i :: 0 <= i < |cs| ==> cs[i].1 < q by {
            forall i | 0 <= i < |cs|
              ensures cs[i].1 < q
            {
              assert i == 0 || cs[0].1 >= cs[i].1;
            }
          }
          OfQualityNone(q, cs);
        }
      }
    }
  }

  /** The sort is stable: the candidates of each quality keep their header order. */
  lemma {:induction false} SortStable(q: real, cs: seq<Candidate>)
    ensures OfQuality(q, Sort(cs)) == OfQuality(q, cs)
  {
    if cs != [] {
      var init := cs[..|cs| - 1];
      var last := cs[|cs| - 1];
      assert cs == init + [last];
      var t := if last.1 == q then [last] else [];
      assert Sort(cs) == Insert(last, Sort(init));
      SortStable(q, init);
      SortDescending(init);
      OfQualityInsert(q, last, Sort(init));
      OfQualityAppend(q, init, [last]);
      assert [last][1..] == [];
      assert OfQuality(q, [last]) == t + OfQuality(q, []);
      assert OfQuality(q, [last]) == t;
    }
  }

  /** The languages tried, in order: the sorted entries, then `default` with quality 0. */
  function Candidates(parse: ParseFloat, headers: map<string, string>): (r: Result<seq<Candidate>>)
    ensures var accept := if "accept-language" in headers then headers["accept-language"] else "default";
      var languages := Split(accept, ",");
      (r.Err? <==> exists i :: 0 <= i < |languages| && Entry(parse, languages[i]).Err?) &&
      (r.Err? ==> r.error == "ValueError") &&
      (r.Ok? ==> |r.value| == |languages| + 1 && r.value[|languages|] == ("default", 0.0))
  {
    var accept := if "accept-language" in headers then headers["accept-language"] else "default";
    match Entries(parse, Split(accept, ","))
    case Err(e) => Err(e)
    case Ok(cs) => Ok(Sort(cs) + [("default", 0.0)])
  }

  /** The script for a language: `translations/<domain>/<language>.js`. */
  function ScriptPath(domain: string, language: string): string
  {
    PathJoin(PathJoin("translations", domain), language + ".js")
  }

  /** The scripts of the candidates, in order. */
  function Scripts(domain: string, cs: seq<Candidate>): (r: seq<string>)
    ensures |r| == |cs| && forall i :: 0 <= i < |cs| ==> r[i] == ScriptPath(domain, cs[i].0)
  {
    seq(|cs|, i requires 0 <= i < |cs| => ScriptPath(domain, cs[i].0))
  }

  /** The first of `paths` that exists. */
  function FirstPresent(present: string -> bool, paths: seq<string>): (r: Option<string>)
    ensures r.None? <==> forall i :: 0 <= i < |paths| ==> !present(paths[i])
    ensures r.Some? ==> exists i :: (0 <= i < |paths| && r.value == paths[i] && present(r.value) &&
      forall j :: 0 <= j < i ==> !present(paths[j]))
  {
    if paths == [] then None
    else if present(paths[0]) then Some(paths[0])
    else
      var r := FirstPresent(present, paths[1..]);
      assert forall i :: 1 <= i < |paths| ==> paths[1..][i - 1] == paths[i];
      if r.Some? then
        var k :| 0 <= k < |paths| - 1 && r.value == paths[1..][k] && present(r.value) &&
          forall j :: 0 <= j < k ==> !present(paths[1..][j]);
        assert forall j :: 0 <= j < k + 1 ==> !present(paths[j]);
        r
      else r
  }

  /** What the route answers: the script it serves, 404, or the exception that escapes. */
  datatype Outcome = Serve(path: string) | NotFound | Failed(error: string)

  /** `translations(headers, domain)` */
  function Negotiate(parse: ParseFloat, present: string -> bool, headers: map<string, string>, domain: string): (r: Outcome)
    ensures r.Failed? <==> Candidates(parse, headers).Err?
    ensures r.Failed? ==> r.error == "ValueError"
    ensures r.Serve? ==> present(r.path)
  {
    match Candidates(parse, headers)
    case Err(e) => Failed(e)
    case Ok(cs) =>
      match FirstPresent(present, Scripts(domain, cs))
      case None => NotFound
      case Some(path) => Serve(path)
  }

  /**
   * The order in which languages are tried: every entry of the header
   * exactly once, highest quality first, equal qualities in header
   * order, and `default` with quality 0 last.
   */
  lemma CandidatesOrder(parse: ParseFloat, headers: map<string, string>)
    ensures var accept := if "accept-language" in headers then headers["accept-language"] else "default";
      var entries := Entries(parse, Split(accept, ","));
      var r := Candidates(parse, headers);
      (r.Ok? <==> entries.Ok?) &&
      (r.Ok? ==>
        |r.value| == |entries.value| + 1 &&
        r.value[|r.value| - 1] == ("default", 0.0) &&
        multiset(r.value[..|r.value| - 1]) == multiset(entries.value) &&
        Descending(r.value[..|r.value| - 1]) &&
        forall q :: OfQuality(q, r.value[..|r.value| - 1]) == OfQuality(q, entries.value))
  {
    var accept := if "accept-language" in headers then headers["accept-language"] else "default";
    var entries := Entries(parse, Split(accept, ","));
    if entries.Ok? {
      var sorted := Sort(entries.value);
      SortDescending(entries.value);
      SortPermutes(entries.value);
      assert (sorted + [("default", 0.0)])[..|sorted|] == sorted;
      forall q
        ensures OfQuality(q, sorted) == OfQuality(q, entries.value)
      {
        SortStable(q, entries.value);
      }
    }
  }

  /** A string without `;` has no quality and is its own first piece. */
  lemma NoSemicolon(s: string)
    requires ';' !in s
    ensures Find(s, ";q=") < 0 && Split(s, ";") == [s]
  {
    forall j: nat
      ensures !OccursAt(s, ";q=", j) && !OccursAt(s, ";", j)
    {
      if j < |s| {
        assert s[j] != ';';
      }
    }
  }

  /** A header of one entry gives that entry alone. */
  lemma EntriesOne(parse: ParseFloat, language: string)
    requires Entry(parse, language).Ok?
    ensures Entries(parse, [language]) == Ok([Entry(parse, language).value])
  {
    var languages := [language];
    assert languages[0] == language && languages[1..] == [];
    assert Entries(parse, languages[1..]) == Ok([]);
    assert [Entry(parse, language).value] + [] == [Entry(parse, language).value];
  }

  /** Splitting `default` on commas gives it alone. */
  lemma DefaultSplit()
    ensures Split("default", ",") == ["default"]
  {
    FindNone("default", ',');
  }

  /** `default` has no quality, so it counts as 1. */
  lemma DefaultEntry(parse: ParseFloat)
    ensures Entry(parse, "default") == Ok(("default", 1.0))
  {
    NoSemicolon("default");
    assert Strip("default") == "default";
  }

  /** The header's stand-in, `default`, is one entry of quality 1. */
  lemma DefaultEntries(parse: ParseFloat)
    ensures Entries(parse, Split("default", ",")) == Ok([("default", 1.0)])
  {
    DefaultSplit();
    DefaultEntry(parse);
    EntriesOne(parse, "default");
  }

  /** Without an Accept-Language header, `default` is tried first with quality 1 and again with quality 0. */
  lemma NoHeader(parse: ParseFloat, headers: map<string, string>)
    requires "accept-language" !in headers
    ensures Candidates(parse, headers) == Ok([("default", 1.0), ("default", 0.0)])
  {
    DefaultEntries(parse);
    assert [("default", 1.0)][..0] == [];
    assert Sort([("default", 1.0)]) == [("default", 1.0)];
    assert Candidates(parse, headers) == Ok(Sort([("default", 1.0)]) + [("default", 0.0)]);
    assert [("default", 1.0)] + [("default", 0.0)] == [("default", 1.0), ("default", 0.0)];
  }

  /**
   * The script served is that of a candidate whose script exists, with
   * no earlier candidate's script existing; 404 exactly when none exists.
   */
  lemma NegotiateServes(parse: ParseFloat, present: string -> bool, headers: map<string, string>, domain: string)
    requires Candidates(parse, headers).Ok?
    ensures var cs := Candidates(parse, headers).value;
      var r := Negotiate(parse, present, headers, domain);
      (r.NotFound? <==> forall i :: 0 <= i < |cs| ==> !present(ScriptPath(domain, cs[i].0))) &&
      (r.Serve? ==> exists i :: (0 <= i < |cs| && r.path == ScriptPath(domain, cs[i].0) && present(r.path) &&
        forall j :: 0 <= j < i ==> !present(ScriptPath(domain, cs[j].0))))
  {
    var cs := Candidates(parse, headers).value;
    var paths := Scripts(domain, cs);
    var found := FirstPresent(present, paths);
    assert Negotiate(parse, present, headers, domain) == if found.None? then NotFound else Serve(found.value);
  }
}
