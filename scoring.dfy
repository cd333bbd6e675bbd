/** Candidate scoring: each candidate's headline and title are compared
    with the job's lower-cased keyword lists, giving six tiers between 5 and
    9; the weighted sum is scaled to 0-10 and rounded to two decimals, and
    the list is sorted by score, highest first, keeping input order among
    equal scores.

    Scores are exact integers: the weighted sum is kept in percent (the
    weights 0.25, 0.3, 0.2, 0.1, 0.1, 0.05 times 100) and the score in
    hundredths. */
module Scoring {
  import opened Wrappers
  import opened Candidates
  import PyStr

  /** The structured keywords: a list of terms per category. */
  type Keywords = map<string, seq<string>>

  /** `[t.lower() for t in kw.get(key, [])]` */
  function Terms(kw: Keywords, key: string): seq<string> {
    var ts := if key in kw then kw[key] else [];
    seq(|ts|, i requires 0 <= i < |ts| => PyStr.Lower(ts[i]))
  }

  /** The five normalised keyword lists. */
  datatype JdTerms = JdTerms(titles: seq<string>, skills: seq<string>, companies: seq<string>,
                             industries: seq<string>, locations: seq<string>)

  function Normalize(kw: Keywords): JdTerms {
    JdTerms(Terms(kw, "job_titles"), Terms(kw, "skills"), Terms(kw, "companies"),
            Terms(kw, "industries"), Terms(kw, "locations"))
  }

  /** A term is a substring of one of `hays`. */
  predicate Occurs(term: string, hays: seq<string>) {
    exists k :: 0 <= k < |hays| && PyStr.Contains(hays[k], term)
  }

  /** `any(t in h1 or t in h2 ... for t in terms)` */
  predicate AnyOccurs(terms: seq<string>, hays: seq<string>) {
    terms != [] && (Occurs(terms[0], hays) || AnyOccurs(terms[1..], hays))
  }

  /** `any` over the terms is "some term occurs". */
  lemma {:induction false} AnyOccursIff(terms: seq<string>, hays: seq<string>)
    ensures AnyOccurs(terms, hays) <==> exists i :: 0 <= i < |terms| && Occurs(terms[i], hays)
  {
    if terms != [] {
      AnyOccursIff(terms[1..], hays);
      if exists i :: 0 <= i < |terms| && Occurs(terms[i], hays) {
        var i :| 0 <= i < |terms| && Occurs(terms[i], hays);
        if i > 0 {
          assert terms[1..][i - 1] == terms[i];
        }
      }
      if AnyOccurs(terms[1..], hays) {
        var i :| 0 <= i < |terms[1..]| && Occurs(terms[1..][i], hays);
        assert terms[i + 1] == terms[1..][i];
      }
    }
  }

  /** `sum(1 for t in terms if ...)`: a term listed twice counts twice. */
  function CountOccurring(terms: seq<string>, hays: seq<string>): (n: nat)
    ensures n <= |terms|
    ensures n == 0 <==> !AnyOccurs(terms, hays)
  {
    if terms == [] then 0
    else (if Occurs(terms[0], hays) then 1 else 0) + CountOccurring(terms[1..], hays)
  }

  /** The six tiers of one candidate. */
  datatype Breakdown = Breakdown(education: int, titleMatch: int, skills: int, company: int,
                                 location: int, experience: int)

  /** Each tier lies between 5 and 9. */
  predicate InTierRange(b: Breakdown) {
    5 <= b.education <= 9 && 5 <= b.titleMatch <= 9 && 5 <= b.skills <= 9
    && 5 <= b.company <= 9 && 5 <= b.location <= 9 && 5 <= b.experience <= 9
  }

  /** The tiers for a (lower-cased) headline and title and a number of
      years of experience. */
  function ScoreBreakdown(headline: string, title: string, years: int, jd: JdTerms): (b: Breakdown)
    ensures InTierRange(b) && b.education == 8
  {
    var skillMatches := CountOccurring(jd.skills, [headline, title]);
    Breakdown(
      8,
      if AnyOccurs(jd.titles, [title, headline]) then 9 else 5,
      if skillMatches >= 3 then 9 else if skillMatches == 2 then 7 else if skillMatches == 1 then 6 else 5,
      if AnyOccurs(jd.companies, [headline]) then 9 else if AnyOccurs(jd.industries, [headline]) then 7 else 5,
      if AnyOccurs(jd.locations, [headline]) then 9 else 5,
      if years >= 5 then 9 else if years >= 3 then 7 else 5)
  }

  /** What each tier means: the title tier is 9 exactly when some job
      title occurs in the title or headline; the skills tier is 5 exactly
      when no skill occurs, 6 exactly when one does, 7 exactly when two do
      and 9 exactly when three or more (counted with repeats) do; the company tier is 9 when a company occurs in the
      headline, 7 when none does but an industry does; the location tier is
      9 exactly when a location occurs in the headline; experience gives 9
      from five years, 7 from three. */
  lemma BreakdownMeaning(headline: string, title: string, years: int, jd: JdTerms)
    ensures var b := ScoreBreakdown(headline, title, years, jd);
            && b.titleMatch == (if exists i :: 0 <= i < |jd.titles| && Occurs(jd.titles[i], [title, headline]) then 9 else 5)
            && (b.skills == 5 <==> forall i :: 0 <= i < |jd.skills| ==> !Occurs(jd.skills[i], [headline, title]))
            && (b.skills == 9 <==> CountOccurring(jd.skills, [headline, title]) >= 3)
            && (b.skills == 7 <==> CountOccurring(jd.skills, [headline, title]) == 2)
            && (b.skills == 6 <==> CountOccurring(jd.skills, [headline, title]) == 1)
            && b.skills in {5, 6, 7, 9}
            && (b.company == 9 <==> exists i :: 0 <= i < |jd.companies| && Occurs(jd.companies[i], [headline]))
            && (b.company == 7 <==> (forall i :: 0 <= i < |jd.companies| ==> !Occurs(jd.companies[i], [headline]))
                                    && exists i :: 0 <= i < |jd.industries| && Occurs(jd.industries[i], [headline]))
            && b.company in {5, 7, 9}
            && b.location == (if exists i :: 0 <= i < |jd.locations| && Occurs(jd.locations[i], [headline]) then 9 else 5)
            && b.experience == (if years >= 5 then 9 else if years >= 3 then 7 else 5)
  {
    AnyOccursIff(jd.titles, [title, headline]);
    AnyOccursIff(jd.skills, [headline, title]);
    AnyOccursIff(jd.companies, [headline]);
    AnyOccursIff(jd.industries, [headline]);
    AnyOccursIff(jd.locations, [headline]);
  }

  /** The weighted sum, in percent of a tier point. */
  function WeightedPercent(b: Breakdown): int {
    25 * b.titleMatch + 30 * b.skills + 20 * b.company + 10 * b.location + 10 * b.experience + 5 * b.education
  }

  /** `round(raw / 9 * 10, 2)` in hundredths, for a weighted sum of `w`
      percent: the integer nearest to 10w/9. It is never more than 4/9 of
      a hundredth away, so there is no tie to break and floating-point
      error in the source's computation cannot change the result. */
  function Normalized(w: int): (n: int)
    ensures -4 <= 9 * n - 10 * w <= 4
  {
    (20 * w + 9) / 18
  }

  /** Any integer within 4/9 of 10w/9 is the normalised score. This is
      why floating point cannot change the score: Python's `round` yields
      (in hundredths) an integer `n` within 1/2 plus a tiny float error of
      10w/9, so the integer 9n - 10w lies strictly between -5 and 5, that
      is, between -4 and 4, and `n` is `Normalized(w)`. */
  lemma NormalizedUnique(w: int, n: int)
    requires -4 <= 9 * n - 10 * w <= 4
    ensures n == Normalized(w)
  {
    var m := Normalized(w);
    assert -8 <= 9 * (n - m) <= 8;
  }

  /** A higher weighted sum never gives a lower score. */
  lemma NormalizedMonotone(w1: int, w2: int)
    requires w1 <= w2
    ensures Normalized(w1) <= Normalized(w2)
  {
  }

  /** Every score lies between 5.72 and 9.94: all tiers at 5 (education at
      8) gives 5.72, all at 9 gives 9.94. */
  lemma ScoreBounds(b: Breakdown)
    requires InTierRange(b) && b.education == 8
    ensures 515 <= WeightedPercent(b) <= 895
    ensures 572 <= Normalized(WeightedPercent(b)) <= 994
  {
    NormalizedMonotone(515, WeightedPercent(b));
    NormalizedMonotone(WeightedPercent(b), 895);
  }

  /** One output record; `score` in hundredths. */
  datatype Scored = Scored(name: string, linkedinUrl: string, headline: string, score: int, breakdown: Breakdown)

  /** Scoring one candidate. None: the candidate has no "name" or no
      "linkedin_url" key (a KeyError that aborts the whole call). */
  function ScoreOne(c: Candidate, jd: JdTerms): (r: Option<Scored>)
    ensures r.None? <==> c.name.None? || c.linkedinUrl.None?
  {
    if c.name.None? || c.linkedinUrl.None? then None
    else
      var b := ScoreBreakdown(PyStr.Lower(c.headline.GetOr("")), PyStr.Lower(c.title.GetOr("")), c.experienceYears.GetOr(0), jd);
      Some(Scored(c.name.value, c.linkedinUrl.value, c.headline.GetOr(""), Normalized(WeightedPercent(b)), b))
  }

  /** A candidate's record keeps its name, URL and headline (an empty
      headline when it has none), holds the tiers of its lower-cased
      headline and title (no title and no experience count as "" and 0),
      and its score lies between 5.72 and 9.94, within 4/9 of a hundredth
      of ten ninths of the weighted sum. */
  lemma ScoreOneRecord(c: Candidate, jd: JdTerms)
    requires c.name.Some? && c.linkedinUrl.Some?
    ensures var r := ScoreOne(c, jd).value;
            && r.name == c.name.value && r.linkedinUrl == c.linkedinUrl.value
            && r.headline == c.headline.GetOr("")
            && r.breakdown == ScoreBreakdown(PyStr.Lower(c.headline.GetOr("")), PyStr.Lower(c.title.GetOr("")),
                                             c.experienceYears.GetOr(0), jd)
            && 572 <= r.score <= 994
            && -4 <= 9 * r.score - 10 * WeightedPercent(r.breakdown) <= 4
  {
    ScoreBounds(ScoreOne(c, jd).value.breakdown);
  }

  // ---------------------------------------------------------------------
  // Sorting by descending score, stable
  // ---------------------------------------------------------------------

  predicate SortedDesc(s: seq<Scored>) {
    forall i, j :: 0 <= i < j < |s| ==> s[i].score >= s[j].score
  }

  /** The records with score `v`, in order. */
  function WithScore(s: seq<Scored>, v: int): seq<Scored> {
    if s == [] then [] else (if s[0].score == v then [s[0]] else []) + WithScore(s[1..], v)
  }

  /** Places `x` before the first record whose score is not higher. */
  function Insert(x: Scored, s: seq<Scored>): (r: seq<Scored>)
    ensures |r| == |s| + 1
  {
    if s == [] then [x]
    else if x.score >= s[0].score then [x] + s
    else [s[0]] + Insert(x, s[1..])
  }

  /** Inserting adds `x` and loses nothing. */
  lemma {:induction false} InsertPermutes(x: Scored, s: seq<Scored>)
    ensures multiset(Insert(x, s)) == multiset(s) + multiset{x}
  {
    if s != [] && x.score < s[0].score {
      InsertPermutes(x, s[1..]);
      assert s == [s[0]] + s[1..];
    }
  }

  lemma {:induction false} InsertSorted(x: Scored, s: seq<Scored>)
    requires SortedDesc(s)
    ensures SortedDesc(Insert(x, s))
  {
    if s != [] && x.score < s[0].score {
      InsertSorted(x, s[1..]);
      var t := Insert(x, s[1..]);
      assert t[0] == x || t[0] == s[1];
      assert forall k :: 0 <= k < |t| ==> s[0].score >= t[0].score >= t[k].score;
      assert Insert(x, s) == [s[0]] + t;
    }
  }

  /** The records with score `v` of a list with `y` in front. */
  lemma WithScoreCons(y: Scored, t: seq<Scored>, v: int)
    ensures WithScore([y] + t, v) == (if y.score == v then [y] else []) + WithScore(t, v)
  {
    assert ([y] + t)[0] == y && ([y] + t)[1..] == t;
  }

  /** Inserting a record adds it to its own score's group, ahead of the
      group's other members. */
  lemma {:induction false} WithScoreInsert(x: Scored, s: seq<Scored>, v: int)
    ensures WithScore(Insert(x, s), v) == (if x.score == v then [x] else []) + WithScore(s, v)
  {
    if s == [] {
      WithScoreCons(x, [], v);
    } else if x.score >= s[0].score {
      WithScoreCons(x, s, v);
    } else {
      var t := Insert(x, s[1..]);
      WithScoreInsert(x, s[1..], v);
      WithScoreCons(s[0], t, v);
      WithScoreCons(s[0], s[1..], v);
      assert s == [s[0]] + s[1..];
      if x.score == v {
        assert WithScore(Insert(x, s), v) == [x] + WithScore(s[1..], v);
        assert WithScore(s, v) == WithScore(s[1..], v);
      } else {
        assert WithScore(Insert(x, s), v) == WithScore(s, v);
      }
    }
  }

  /** Python's `sort(key=score, reverse=True)`. */
  function SortByScore(s: seq<Scored>): (r: seq<Scored>)
    ensures SortedDesc(r)
    ensures multiset(r) == multiset(s) && |r| == |s|
  {
    if s == [] then []
    else
      var rest := SortByScore(s[1..]);
      InsertSorted(s[0], rest);
      InsertPermutes(s[0], rest);
      assert s == [s[0]] + s[1..];
      Insert(s[0], rest)
  }

  /** Stability: for every score, the records with that score keep their
      input order. */
  lemma {:induction false} SortStable(s: seq<Scored>, v: int)
    ensures WithScore(SortByScore(s), v) == WithScore(s, v)
  {
    if s != [] {
      SortStable(s[1..], v);
      WithScoreInsert(s[0], SortByScore(s[1..]), v);
    }
  }

  /** Scoring every candidate in order; None as soon as one aborts. */
  function ScoreEach(cs: seq<Candidate>, jd: JdTerms): Option<seq<Scored>> {
    if cs == [] then Some([])
    else
      var first := ScoreOne(cs[0], jd);
      var rest := ScoreEach(cs[1..], jd);
      if first.None? || rest.None? then None else Some([first.value] + rest.value)
  }

  /** The scoring aborts exactly when some candidate aborts; otherwise it
      holds each candidate's record, in order. */
  lemma {:induction false} ScoreEachMeaning(cs: seq<Candidate>, jd: JdTerms)
    ensures ScoreEach(cs, jd).None? <==> exists i :: 0 <= i < |cs| && ScoreOne(cs[i], jd).None?
    ensures ScoreEach(cs, jd).Some? ==>
              |ScoreEach(cs, jd).value| == |cs|
              && forall i :: 0 <= i < |cs| ==> ScoreOne(cs[i], jd) == Some(ScoreEach(cs, jd).value[i])
  {
    if cs != [] {
      ScoreEachMeaning(cs[1..], jd);
      if ScoreOne(cs[0], jd).Some? && ScoreEach(cs[1..], jd).None? {
        var i :| 0 <= i < |cs[1..]| && ScoreOne(cs[1..][i], jd).None?;
        assert cs[i + 1] == cs[1..][i];
      }
      if exists i :: 0 <= i < |cs| && ScoreOne(cs[i], jd).None? {
        var i :| 0 <= i < |cs| && ScoreOne(cs[i], jd).None?;
        if i > 0 {
          assert cs[1..][i - 1] == cs[i];
        }
      }
      assert forall i :: 1 <= i < |cs| ==> cs[i] == cs[1..][i - 1];
    }
  }

  /** `score_candidates_dynamic`: the candidates scored in a loop, then
      sorted. The result is every candidate's record, highest score first,
      candidates with equal scores in input order. */
  method ScoreCandidatesDynamic(candidates: seq<Candidate>, kw: Keywords) returns (r: Option<seq<Scored>>)
    ensures r.None? <==> exists i :: 0 <= i < |candidates| && ScoreOne(candidates[i], Normalize(kw)).None?
    ensures r.Some? ==> ScoreEach(candidates, Normalize(kw)).Some?
                        && r.value == SortByScore(ScoreEach(candidates, Normalize(kw)).value)
    ensures r.Some? ==> |r.value| == |candidates| && SortedDesc(r.value)
    ensures r.Some? ==> multiset(r.value) == multiset(ScoreEach(candidates, Normalize(kw)).value)
    ensures r.Some? ==> forall v :: WithScore(r.value, v) == WithScore(ScoreEach(candidates, Normalize(kw)).value, v)
  {
    var jd := Normalize(kw);
    var scored: seq<Scored> := [];
    for i := 0 to |candidates|
      invariant |scored| == i
      invariant forall j :: 0 <= j < i ==> ScoreOne(candidates[j], jd) == Some(scored[j])
    {
      var s := ScoreOne(candidates[i], jd);
      if s.None? {
        return None;
      }
      scored := scored + [s.value];
    }
    ScoreEachMeaning(candidates, jd);
    var all := ScoreEach(candidates, jd);
    assert all.value == scored;
    forall v
      ensures WithScore(SortByScore(scored), v) == WithScore(scored, v)
    {
      SortStable(scored, v);
    }
    r := Some(SortByScore(scored));
  }
}
