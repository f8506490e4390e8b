/**
  Structural matching of content-URI paths against registered templates,
  with the semantics of Android's UriMatcher as the provider relies on it:
  a template is a slash-delimited sequence of segments, `*` matches any one
  segment, `#` matches one segment made only of decimal digits, and any other
  segment must be equal to the path segment. Segment counts must agree, and a
  path that matches no registered template yields NO_MATCH.
 */
module UriMatching {

  /** The code UriMatcher.match returns for a path that no template matches. */
  const NoMatch: int := -1

  /** One segment of a template: a literal, `*` (any text) or `#` (a number). */
  datatype Segment = Exact(text: string) | Text | Number

  /** A template registered with addURI, together with the code it maps to. */
  datatype Registration = Registration(template: seq<Segment>, code: int)

  /** True when every character of `s` is a decimal digit. */
  predicate IsNumber(s: string) {
    forall k :: 0 <= k < |s| ==> '0' <= s[k] <= '9'
  }

  predicate SegmentMatches(p: Segment, s: string) {
    match p
    case Exact(text) => text == s
    case Text => true
    case Number => IsNumber(s)
  }

  /** A template matches a path of the same length, segment by segment. */
  predicate TemplateMatches(t: seq<Segment>, path: seq<string>) {
    |t| == |path| && forall k :: 0 <= k < |t| ==> SegmentMatches(t[k], path[k])
  }

  /** Some registration of `table` matches `path`. */
  ghost predicate Matched(table: seq<Registration>, path: seq<string>) {
    exists i :: 0 <= i < |table| && TemplateMatches(table[i].template, path)
  }

  /**
    The code of the first registration whose template matches `path`, or
    NoMatch when none does.
   */
  function MatchIn(table: seq<Registration>, path: seq<string>): (r: int)
    ensures !Matched(table, path) ==> r == NoMatch
    ensures Matched(table, path) ==>
      exists i :: 0 <= i < |table| && TemplateMatches(table[i].template, path) && r == table[i].code &&
        forall j :: 0 <= j < i ==> !TemplateMatches(table[j].template, path)
  {
    if table == [] then NoMatch
    else if TemplateMatches(table[0].template, path) then table[0].code
    else
      var r := MatchIn(table[1..], path);
      assert forall i :: 1 <= i < |table| ==> table[i] == table[1..][i - 1];
      assert Matched(table, path) ==> Matched(table[1..], path);
      r
  }

  /**
    When every registration that matches `path` carries the same code `c`,
    the order of the table does not matter: matching gives `c` whenever
    anything matches.
   */
  lemma MatchInAgreeing(table: seq<Registration>, path: seq<string>, c: int)
    requires forall i :: 0 <= i < |table| && TemplateMatches(table[i].template, path) ==> table[i].code == c
    ensures MatchIn(table, path) == if Matched(table, path) then c else NoMatch
  {
  }

  /**
    For a path on which all registrations agree, reordering the table does
    not change what it matches.
   */
  lemma MatchInPermutation(table: seq<Registration>, reordered: seq<Registration>, path: seq<string>, c: int)
    requires multiset(reordered) == multiset(table)
    requires forall i :: 0 <= i < |table| && TemplateMatches(table[i].template, path) ==> table[i].code == c
    ensures MatchIn(reordered, path) == MatchIn(table, path)
  {
    forall i | 0 <= i < |reordered| && TemplateMatches(reordered[i].template, path)
      ensures reordered[i].code == c
    {
      assert reordered[i] in multiset(table);
      var j :| 0 <= j < |table| && table[j] == reordered[i];
    }
    MatchInAgreeing(table, path, c);
    MatchInAgreeing(reordered, path, c);
    if Matched(reordered, path) {
      var i :| 0 <= i < |reordered| && TemplateMatches(reordered[i].template, path);
      assert reordered[i] in multiset(table);
      var j :| 0 <= j < |table| && table[j] == reordered[i];
      assert Matched(table, path);
    }
    if Matched(table, path) {
      var j :| 0 <= j < |table| && TemplateMatches(table[j].template, path);
      assert table[j] in multiset(reordered);
      var i :| 0 <= i < |reordered| && reordered[i] == table[j];
      assert Matched(reordered, path);
    }
  }

  /**
    The mutable registry that the provider's static initialiser fills: each
    addURI call appends one registration, and match consults them in the
    order they were added.
   */
  class UriMatcher {
    var registrations: seq<Registration>

    constructor ()
      ensures registrations == []
    {
      registrations := [];
    }

    method AddUri(template: seq<Segment>, code: int)
      modifies this
      ensures registrations == old(registrations) + [Registration(template, code)]
    {
      registrations := registrations + [Registration(template, code)];
    }

    function Match(path: seq<string>): int
      reads this
    {
      MatchIn(registrations, path)
    }
  }
}
