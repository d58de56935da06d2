/**
 * The query-relaxation search of `process_query`: the full phrase first, then every
 * phrase with one token left out, then every single token, keeping the first
 * non-empty lookup with the fewest results.
 */
module Search {
  import opened Text

  /** The stable identifier of a point of interest. */
  type PoiId = int

  /** The phrase looked up for a token sequence: the tokens joined by single spaces. */
  function Phrase(tokens: seq<string>): string {
    Join(tokens, " ")
  }

  /** `tokens` with the token at `i` left out. */
  function Omit(tokens: seq<string>, i: nat): seq<string>
    requires i < |tokens|
  {
    tokens[..i] + tokens[i + 1..]
  }

  /** The omission phrases in scan order: the one leaving out token 0 first. */
  function OmissionPhrases(tokens: seq<string>): seq<string> {
    seq(|tokens|, i requires 0 <= i < |tokens| => Phrase(Omit(tokens, i)))
  }

  /** A lookup result replaces the current one when it is non-empty and strictly smaller. */
  predicate Replaces(candidate: seq<PoiId>, current: seq<PoiId>) {
    candidate != [] && (current == [] || |current| > |candidate|)
  }

  /** One step of a relaxation scan. */
  function Step(current: seq<PoiId>, candidate: seq<PoiId>): seq<PoiId> {
    if Replaces(candidate, current) then candidate else current
  }

  /** The result of a relaxation scan over `queries`, in order, starting from `start`. */
  function Scan(start: seq<PoiId>, queries: seq<string>, find: string -> seq<PoiId>): seq<PoiId> {
    if queries == [] then start
    else Step(Scan(start, queries[..|queries| - 1], find), find(queries[|queries| - 1]))
  }

  /**
   * The lookups `find` performs for `process_query`: the full phrase, then (only when it
   * found nothing and there are more than two tokens) the omission phrases, then (only
   * when still nothing was found and there is more than one token) the single tokens.
   */
  function Relaxed(tokens: seq<string>, find: string -> seq<PoiId>): seq<PoiId> {
    var full := find(Phrase(tokens));
    var afterOmission := if full == [] && |tokens| > 2 then Scan(full, OmissionPhrases(tokens), find) else full;
    if afterOmission == [] && |tokens| > 1 then Scan(afterOmission, tokens, find) else afterOmission
  }

  /**
   * The value the variable `query` holds after the search: the full phrase, unless the
   * omission scan ran, in which case the last omission phrase (the one leaving out the
   * last token), whichever lookup won.
   */
  function StoredQuery(tokens: seq<string>, find: string -> seq<PoiId>): string {
    if find(Phrase(tokens)) == [] && |tokens| > 2 then Phrase(Omit(tokens, |tokens| - 1))
    else Phrase(tokens)
  }

  /**
   * `queries[k]` is the first query whose lookup is non-empty and as small as any
   * non-empty lookup: every earlier non-empty lookup is strictly larger.
   */
  ghost predicate FirstMinimumAt(queries: seq<string>, find: string -> seq<PoiId>, k: int) {
    && 0 <= k < |queries|
    && find(queries[k]) != []
    && (forall j :: 0 <= j < |queries| && find(queries[j]) != [] ==> |find(queries[k])| <= |find(queries[j])|)
    && (forall j :: 0 <= j < k && find(queries[j]) != [] ==> |find(queries[k])| < |find(queries[j])|)
  }

  /**
   * What a scan from nothing computes: nothing exactly when every lookup is empty,
   * otherwise the lookup of a first minimum.
   */
  ghost predicate ScanOutcome(queries: seq<string>, find: string -> seq<PoiId>, r: seq<PoiId>) {
    && (r == [] <==> forall j :: 0 <= j < |queries| ==> find(queries[j]) == [])
    && (r != [] ==> exists k :: FirstMinimumAt(queries, find, k) && r == find(queries[k]))
  }

  /** The last query becomes the first minimum when it replaces the result so far. */
  lemma FirstMinimumAtLast(queries: seq<string>, find: string -> seq<PoiId>)
    requires |queries| > 0
    requires ScanOutcome(queries[..|queries| - 1], find, Scan([], queries[..|queries| - 1], find))
    requires Replaces(find(queries[|queries| - 1]), Scan([], queries[..|queries| - 1], find))
    ensures FirstMinimumAt(queries, find, |queries| - 1)
  {
    var n := |queries| - 1;
    var prefix := queries[..n];
    var before := Scan([], prefix, find);
    assert forall j :: 0 <= j < n ==> prefix[j] == queries[j];
    if before != [] {
      var k :| FirstMinimumAt(prefix, find, k) && before == find(prefix[k]);
    }
  }

  /** A first minimum of the earlier queries stays one when the last query does not replace it. */
  lemma FirstMinimumKept(queries: seq<string>, find: string -> seq<PoiId>, k: int)
    requires |queries| > 0
    requires FirstMinimumAt(queries[..|queries| - 1], find, k)
    requires !Replaces(find(queries[|queries| - 1]), find(queries[k]))
    ensures FirstMinimumAt(queries, find, k)
  {
    var n := |queries| - 1;
    assert forall j :: 0 <= j < n ==> queries[..n][j] == queries[j];
  }

  /** A scan from nothing computes its outcome. */
  lemma {:induction false} ScanComputesOutcome(queries: seq<string>, find: string -> seq<PoiId>)
    ensures ScanOutcome(queries, find, Scan([], queries, find))
  {
    if queries != [] {
      var n := |queries| - 1;
      var prefix := queries[..n];
      ScanComputesOutcome(prefix, find);
      var before := Scan([], prefix, find);
      var last := find(queries[n]);
      if Replaces(last, before) {
        FirstMinimumAtLast(queries, find);
      } else if before != [] {
        var k :| FirstMinimumAt(prefix, find, k) && before == find(prefix[k]);
        assert prefix[k] == queries[k];
        FirstMinimumKept(queries, find, k);
      } else {
        assert forall j :: 0 <= j < n ==> prefix[j] == queries[j];
      }
    }
  }

  /**
   * A scan from nothing finds nothing exactly when every lookup is empty; otherwise it
   * finds the lookup of the first query with the fewest non-empty results, so that a
   * later tie never replaces an earlier one.
   */
  lemma ScanFirstMinimum(queries: seq<string>, find: string -> seq<PoiId>)
    ensures Scan([], queries, find) == [] <==> forall j :: 0 <= j < |queries| ==> find(queries[j]) == []
    ensures forall k :: FirstMinimumAt(queries, find, k) ==> Scan([], queries, find) == find(queries[k])
    ensures Scan([], queries, find) != [] ==>
              exists k :: FirstMinimumAt(queries, find, k) && Scan([], queries, find) == find(queries[k])
  {
    ScanComputesOutcome(queries, find);
    if Scan([], queries, find) != [] {
      var k :| FirstMinimumAt(queries, find, k) && Scan([], queries, find) == find(queries[k]);
      FirstMinimumUnique(queries, find, k);
    }
  }

  /** At most one query is the first minimum. */
  lemma FirstMinimumUnique(queries: seq<string>, find: string -> seq<PoiId>, k: int)
    requires FirstMinimumAt(queries, find, k)
    ensures forall k' :: FirstMinimumAt(queries, find, k') ==> k' == k
  {
  }

  /** Every lookup `process_query` may perform, in order. */
  function Candidates(tokens: seq<string>): seq<string> {
    [Phrase(tokens)]
    + (if |tokens| > 2 then OmissionPhrases(tokens) else [])
    + (if |tokens| > 1 then tokens else [])
  }

  /**
   * Which stage decides the result: a non-empty full-phrase lookup is the result; the
   * omission scan runs only for more than two tokens; the single-token scan runs only
   * for more than one token and only when nothing was found before it.
   */
  lemma RelaxationStages(tokens: seq<string>, find: string -> seq<PoiId>)
    ensures find(Phrase(tokens)) != [] ==> Relaxed(tokens, find) == find(Phrase(tokens))
    ensures |tokens| <= 1 ==> Relaxed(tokens, find) == find(Phrase(tokens))
    ensures find(Phrase(tokens)) == [] && |tokens| == 2 ==> Relaxed(tokens, find) == Scan([], tokens, find)
    ensures find(Phrase(tokens)) == [] && |tokens| > 2 ==>
              var omitted := Scan([], OmissionPhrases(tokens), find);
              Relaxed(tokens, find) == if omitted != [] then omitted else Scan([], tokens, find)
  {
  }

  /**
   * A non-empty result is the lookup of one of the candidate phrases; an empty result
   * means every candidate lookup was empty.
   */
  lemma RelaxedProvenance(tokens: seq<string>, find: string -> seq<PoiId>)
    ensures Relaxed(tokens, find) != [] ==>
              exists q :: q in Candidates(tokens) && find(q) == Relaxed(tokens, find)
    ensures Relaxed(tokens, find) == [] <==> forall q :: q in Candidates(tokens) ==> find(q) == []
  {
    var cs := Candidates(tokens);
    var omissions := OmissionPhrases(tokens);
    ScanFirstMinimum(omissions, find);
    ScanFirstMinimum(tokens, find);
    var r := Relaxed(tokens, find);
    assert Phrase(tokens) in cs;
    if |tokens| > 2 {
      assert forall q :: q in omissions ==> q in cs;
    }
    if |tokens| > 1 {
      assert forall q :: q in tokens ==> q in cs;
    }
    if r == [] {
      forall q | q in cs
        ensures find(q) == []
      {
        if q != Phrase(tokens) {
          if |tokens| > 2 && q in omissions {
            var j :| 0 <= j < |omissions| && omissions[j] == q;
          } else {
            assert q in tokens;
            var j :| 0 <= j < |tokens| && tokens[j] == q;
          }
        }
      }
    } else if find(Phrase(tokens)) == [] {
      if |tokens| > 2 && Scan([], omissions, find) != [] {
        var k :| FirstMinimumAt(omissions, find, k) && Scan([], omissions, find) == find(omissions[k]);
        assert omissions[k] in cs;
      } else {
        var k :| FirstMinimumAt(tokens, find, k) && Scan([], tokens, find) == find(tokens[k]);
        assert tokens[k] in cs;
      }
    }
  }

  /** Extending a scan by one query performs one more step. */
  lemma ScanSnoc(queries: seq<string>, i: nat, find: string -> seq<PoiId>)
    requires i < |queries|
    ensures Scan([], queries[..i + 1], find) == Step(Scan([], queries[..i], find), find(queries[i]))
  {
    assert queries[..i + 1][..i] == queries[..i];
  }

  /**
   * `process_query`'s search: returns the result list and the final value of `query`.
   */
  method Resolve(tokens: seq<string>, find: string -> seq<PoiId>) returns (pois: seq<PoiId>, query: string)
    ensures pois == Relaxed(tokens, find)
    ensures query == StoredQuery(tokens, find)
  {
    query := Phrase(tokens);
    pois := find(query);
    if pois == [] && |tokens| > 2 {
      ghost var omissions := OmissionPhrases(tokens);
      var ti := 0;
      while ti < |tokens|
        invariant 0 <= ti <= |tokens|
        invariant pois == Scan([], omissions[..ti], find)
        invariant ti == 0 ==> query == Phrase(tokens)
        invariant ti > 0 ==> query == Phrase(Omit(tokens, ti - 1))
      {
        query := Phrase(Omit(tokens, ti));
        var newPois := find(query);
        if newPois != [] && (pois == [] || |pois| > |newPois|) {
          pois := newPois;
        }
        ScanSnoc(omissions, ti, find);
        ti := ti + 1;
      }
      assert omissions[..ti] == omissions;
    }
    if pois == [] && |tokens| > 1 {
      var i := 0;
      while i < |tokens|
        invariant 0 <= i <= |tokens|
        invariant pois == Scan([], tokens[..i], find)
      {
        var newPois := find(tokens[i]);
        if newPois != [] && (pois == [] || |pois| > |newPois|) {
          pois := newPois;
        }
        ScanSnoc(tokens, i, find);
        i := i + 1;
      }
      assert tokens[..i] == tokens;
    }
  }

  /**
   * Fewest results wins regardless of scan order: for the tokens `a b c` with no exact
   * match, where leaving out `b` finds one POI and leaving out `a` or `c` finds three,
   * the one-POI result is chosen.
   */
  lemma FewestWins(a: string, b: string, c: string, find: string -> seq<PoiId>)
    requires find(Phrase([a, b, c])) == []
    requires |find(b + " " + c)| == 3 && |find(a + " " + c)| == 1 && |find(a + " " + b)| == 3
    ensures Relaxed([a, b, c], find) == find(a + " " + c)
  {
    var t := [a, b, c];
    assert Omit(t, 0) == [b, c];
    JoinPair(b, c, " ");
    assert Omit(t, 1) == [a, c];
    JoinPair(a, c, " ");
    assert Omit(t, 2) == [a, b];
    JoinPair(a, b, " ");
    var qs := OmissionPhrases(t);
    assert qs == [b + " " + c, a + " " + c, a + " " + b];
    assert FirstMinimumAt(qs, find, 1);
    ScanFirstMinimum(qs, find);
  }

  /**
   * Ties keep the earlier omission: when leaving out `a` and leaving out `b` find the
   * same number of POIs and leaving out `c` finds more, the first is kept.
   */
  lemma FirstTieWins(a: string, b: string, c: string, find: string -> seq<PoiId>)
    requires find(Phrase([a, b, c])) == []
    requires find(b + " " + c) != [] && |find(b + " " + c)| == |find(a + " " + c)|
    requires |find(a + " " + b)| > |find(b + " " + c)|
    ensures Relaxed([a, b, c], find) == find(b + " " + c)
  {
    var t := [a, b, c];
    assert Omit(t, 0) == [b, c];
    JoinPair(b, c, " ");
    assert Omit(t, 1) == [a, c];
    JoinPair(a, c, " ");
    assert Omit(t, 2) == [a, b];
    JoinPair(a, b, " ");
    var qs := OmissionPhrases(t);
    assert qs == [b + " " + c, a + " " + c, a + " " + b];
    assert FirstMinimumAt(qs, find, 0);
    ScanFirstMinimum(qs, find);
  }

  /**
   * The stored query is not the winning phrase: for `a b c` where only leaving out
   * `a` finds something, the result is that lookup but `query` holds `a b`.
   */
  lemma StoredQueryIsLastOmission(a: string, b: string, c: string, find: string -> seq<PoiId>)
    requires find(Phrase([a, b, c])) == []
    requires find(b + " " + c) != [] && find(a + " " + c) == [] && find(a + " " + b) == []
    ensures Relaxed([a, b, c], find) == find(b + " " + c)
    ensures StoredQuery([a, b, c], find) == a + " " + b
  {
    var t := [a, b, c];
    assert Omit(t, 0) == [b, c];
    JoinPair(b, c, " ");
    assert Omit(t, 1) == [a, c];
    JoinPair(a, c, " ");
    assert Omit(t, 2) == [a, b];
    JoinPair(a, b, " ");
    var qs := OmissionPhrases(t);
    assert qs == [b + " " + c, a + " " + c, a + " " + b];
    assert FirstMinimumAt(qs, find, 0);
    ScanFirstMinimum(qs, find);
  }
}
