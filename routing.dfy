/** The WebSocket route table: one pattern, `ws/lecture/(?P<lecture_id>\d+)/$`,
    matched against the whole path the router hands it. The digit class is
    taken to be the ASCII digits. */
module Routing {
  import opened Text

  const RoutePrefix := "ws/lecture/"

  /** Splits off the longest run of leading decimal digits, as the greedy `\d+`
      does; what follows the run does not start with a digit. */
  function DigitRun(s: string): (r: (string, string))
    ensures r.0 + r.1 == s && AllDigits(r.0)
    ensures r.1 == [] || !IsDigit(r.1[0])
  {
    if s != [] && IsDigit(s[0]) then
      var (run, rest) := DigitRun(s[1..]);
      ([s[0]] + run, rest)
    else ([], s)
  }

  /** The `lecture_id` the route captures from `path`, or `None` when the path
      does not match the pattern. */
  function LectureId(path: string): (r: Option<string>)
    ensures r.Some? ==> r.value != [] && AllDigits(r.value)
  {
    if |path| >= |RoutePrefix| && path[..|RoutePrefix|] == RoutePrefix then
      var (run, rest) := DigitRun(path[|RoutePrefix|..]);
      if run != [] && rest == "/" then Some(run) else None
    else None
  }

  /** The only split of `digits + rest` into a digit run and a remainder that
      does not start with a digit. */
  lemma {:induction false} DigitRunOf(digits: string, rest: string)
    requires AllDigits(digits)
    requires rest == [] || !IsDigit(rest[0])
    ensures DigitRun(digits + rest) == (digits, rest)
    decreases |digits|
  {
    var s := digits + rest;
    if digits == [] {
      assert s == rest;
    } else {
      assert s[1..] == digits[1..] + rest;
      DigitRunOf(digits[1..], rest);
      assert [s[0]] + digits[1..] == digits;
    }
  }

  /** The route accepts exactly the paths `ws/lecture/<digits>/` with at least
      one digit, and the captured id is that digit run. */
  lemma RouteMatches(path: string, id: string)
    ensures LectureId(path) == Some(id) <==> (path == RoutePrefix + id + "/" && id != [] && AllDigits(id))
  {
    if path == RoutePrefix + id + "/" && id != [] && AllDigits(id) {
      assert path[..|RoutePrefix|] == RoutePrefix;
      assert path[|RoutePrefix|..] == id + "/";
      DigitRunOf(id, "/");
    }
    if LectureId(path) == Some(id) {
      var (run, rest) := DigitRun(path[|RoutePrefix|..]);
      assert path == RoutePrefix + path[|RoutePrefix|..];
    }
  }

  /** An id segment holding any non-digit character is not routed. */
  lemma NonDigitRejected(id: string, k: nat)
    requires k < |id| && !IsDigit(id[k])
    ensures LectureId(RoutePrefix + id + "/") == None
  {
    var path := RoutePrefix + id + "/";
    assert path[|RoutePrefix| + k] == id[k];
    if LectureId(path).Some? {
      RouteMatches(path, LectureId(path).value);
    }
  }

  /** A path that does not end in `/` is not routed. */
  lemma MissingSlashRejected(path: string)
    requires path == [] || path[|path| - 1] != '/'
    ensures LectureId(path) == None
  {
    if LectureId(path).Some? {
      RouteMatches(path, LectureId(path).value);
    }
  }

  /** The path a client opens for lecture `n` is routed, and yields `n`'s
      decimal text as the id. */
  lemma LecturePathRoutes(n: nat)
    ensures LectureId(RoutePrefix + NatText(n) + "/") == Some(NatText(n))
  {
    RouteMatches(RoutePrefix + NatText(n) + "/", NatText(n));
  }
}
