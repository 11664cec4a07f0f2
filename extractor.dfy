/**
 * The ESG feature extractor `process_esg_files_working`: one pass over the
 * sentences of a document that tags each sentence with taxonomy
 * subcategories, scores it, attributes organisation reputation and counts
 * it into a fixed-schema feature record.
 */
module Extractor {
  import opened Wrappers
  import opened Text
  import opened Taxonomy

  /** A sentiment score; the regressor's sigmoid head keeps it in [0, 1]. */
  type Score = r: real | 0.0 <= r <= 1.0

  /**
   * What one extraction depends on: the keyword taxonomy, the flat
   * lower-cased keyword list built from it at start-up, `str.lower`, the
   * sentiment model, the organisation recogniser and the reputation table.
   * A collaborator that raises answers None.
   */
  datatype Pipeline = Pipeline(
    taxonomy: Taxonomy,
    keywordsLower: seq<string>,
    lower: string -> string,
    sentiment: string -> Option<Score>,
    organizations: string -> Option<seq<string>>,
    reputation: map<string, real>)

  /** The flat keyword list is the one built from the taxonomy at start-up. */
  predicate Ready(p: Pipeline)
  {
    p.keywordsLower == LowerAll(p.lower, Flatten(p.taxonomy))
  }

  const MinSentenceLength: nat := 10
  const MaxScoredWords: nat := 50
  const MaxNerChars: nat := 512

  datatype Sentiment = Positive | Negative | Neutral

  /** The thresholds of the labelling step; [0.5, 0.7) is the neutral band. */
  function Label(score: real): (s: Sentiment)
    ensures s == Positive <==> score >= 0.7
    ensures s == Negative <==> score < 0.5
    ensures s == Neutral <==> 0.5 <= score < 0.7
  {
    if score >= 0.7 then Positive
    else if score < 0.5 then Negative
    else Neutral
  }

  /**
   * The cut to the first 50 words before scoring: the result has at most 50
   * words, a sentence of 50 words or fewer is kept as it is, and a longer one
   * becomes exactly its first 50 words joined with single spaces.
   */
  function Truncate(sentence: string): (r: string)
    ensures |Words(r)| <= MaxScoredWords
    ensures |Words(sentence)| <= MaxScoredWords ==> r == sentence
    ensures |Words(sentence)| > MaxScoredWords ==> Words(r) == Words(sentence)[..MaxScoredWords]
    ensures |Words(sentence)| > MaxScoredWords ==> r == JoinSpace(Words(sentence)[..MaxScoredWords])
  {
    var words := Words(sentence);
    if |words| > MaxScoredWords then
      WordsOfJoinSpace(words[..MaxScoredWords]);
      JoinSpace(words[..MaxScoredWords])
    else sentence
  }

  /** `infer_sentiment`: a blank sentence raises, anything else goes to the model. */
  function InferSentiment(p: Pipeline, sentence: string): (r: Option<Score>)
    ensures Blank(sentence) ==> r == None
    ensures !Blank(sentence) ==> r == p.sentiment(sentence)
  {
    if Strip(sentence) == [] then None else p.sentiment(sentence)
  }

  /**
   * The cut of `extract_organization_names`: a text of at most 512
   * characters is kept, a longer one is cut to its first 512.
   */
  function NerInput(text: string): (r: string)
    ensures |r| <= MaxNerChars && r <= text
    ensures |text| <= MaxNerChars ==> r == text
    ensures |text| > MaxNerChars ==> |r| == MaxNerChars
  {
    if |text| > MaxNerChars then text[..MaxNerChars] else text
  }

  /**
   * `extract_organization_names`: the recogniser's organisation names for
   * the text itself when it has at most 512 characters, and for its first
   * 512 characters otherwise.
   */
  function ExtractOrganizationNames(p: Pipeline, text: string): (r: Option<seq<string>>)
    ensures |text| <= MaxNerChars ==> r == p.organizations(text)
    ensures |text| > MaxNerChars ==> r == p.organizations(text[..MaxNerChars])
  {
    p.organizations(NerInput(text))
  }

  /** `found_keywords`: the keywords of the flat list that occur in the sentence, in list order. */
  function FoundKeywords(keywords: seq<string>, sentence: string): (found: seq<string>)
    ensures forall k :: k in found <==> k in keywords && Contains(sentence, k)
  {
    if keywords == [] then []
    else
      var n := |keywords| - 1;
      assert keywords == keywords[..n] + [keywords[n]];
      FoundKeywords(keywords[..n], sentence) + (if Contains(sentence, keywords[n]) then [keywords[n]] else [])
  }

  /** The gate loop over the flat lower-cased keyword list. */
  method FindKeywords(keywords: seq<string>, sentence: string) returns (found: seq<string>)
    ensures found == FoundKeywords(keywords, sentence)
  {
    found := [];
    for i := 0 to |keywords|
      invariant found == FoundKeywords(keywords[..i], sentence)
    {
      assert keywords[..i + 1][..i] == keywords[..i];
      if Contains(sentence, keywords[i]) {
        found := found + [keywords[i]];
      }
    }
    assert keywords[..|keywords|] == keywords;
  }

  /** Some keyword of the list, lower-cased, occurs in the sentence. */
  predicate Hits(lower: string -> string, sentence: string, keywords: seq<string>)
  {
    keywords != [] &&
    (Hits(lower, sentence, keywords[..|keywords| - 1]) || Contains(sentence, lower(keywords[|keywords| - 1])))
  }

  /** The subcategories of a run of entries that some keyword of theirs hits. */
  function SubsFound(lower: string -> string, sentence: string, subs: seq<SubEntry>): set<Subcategory>
  {
    if subs == [] then {}
    else
      var last := subs[|subs| - 1];
      SubsFound(lower, sentence, subs[..|subs| - 1]) + (if Hits(lower, sentence, last.keywords) then {last.sub} else {})
  }

  /** `subcategories_found`: every subcategory of the taxonomy that some keyword of its hits. */
  function SubcategoriesFound(lower: string -> string, sentence: string, tax: Taxonomy): set<Subcategory>
  {
    if tax == [] then {}
    else SubcategoriesFound(lower, sentence, tax[..|tax| - 1]) + SubsFound(lower, sentence, tax[|tax| - 1].subs)
  }

  /** `categories_found`: every pillar of the taxonomy holding a subcategory that is hit. */
  function CategoriesFound(lower: string -> string, sentence: string, tax: Taxonomy): set<Pillar>
  {
    if tax == [] then {}
    else
      var last := tax[|tax| - 1];
      CategoriesFound(lower, sentence, tax[..|tax| - 1]) + (if SubsFound(lower, sentence, last.subs) != {} then {last.pillar} else {})
  }

  /**
   * The innermost attribution loop over one subcategory's keywords: every
   * keyword that occurs adds the pillar and the subcategory to the sets.
   */
  method ScanKeywords(lower: string -> string, sentence: string, pillar: Pillar, sub: SubEntry,
                      categories0: set<Pillar>, subcategories0: set<Subcategory>)
    returns (categories: set<Pillar>, subcategories: set<Subcategory>)
    ensures subcategories == subcategories0 + (if Hits(lower, sentence, sub.keywords) then {sub.sub} else {})
    ensures categories == categories0 + (if Hits(lower, sentence, sub.keywords) then {pillar} else {})
  {
    categories, subcategories := categories0, subcategories0;
    for k := 0 to |sub.keywords|
      invariant subcategories == subcategories0 + (if Hits(lower, sentence, sub.keywords[..k]) then {sub.sub} else {})
      invariant categories == categories0 + (if Hits(lower, sentence, sub.keywords[..k]) then {pillar} else {})
    {
      assert sub.keywords[..k + 1][..k] == sub.keywords[..k];
      if Contains(sentence, lower(sub.keywords[k])) {
        categories := categories + {pillar};
        subcategories := subcategories + {sub.sub};
      }
    }
    assert sub.keywords[..|sub.keywords|] == sub.keywords;
  }

  /** The nested attribution scan over pillars, subcategories and keywords. */
  method FindCategories(tax: Taxonomy, lower: string -> string, sentence: string)
    returns (categories: set<Pillar>, subcategories: set<Subcategory>)
    ensures categories == CategoriesFound(lower, sentence, tax)
    ensures subcategories == SubcategoriesFound(lower, sentence, tax)
  {
    categories, subcategories := {}, {};
    for i := 0 to |tax|
      invariant categories == CategoriesFound(lower, sentence, tax[..i])
      invariant subcategories == SubcategoriesFound(lower, sentence, tax[..i])
    {
      var entry := tax[i];
      ghost var cats0, subs0 := categories, subcategories;
      for j := 0 to |entry.subs|
        invariant subcategories == subs0 + SubsFound(lower, sentence, entry.subs[..j])
        invariant categories == cats0 + (if SubsFound(lower, sentence, entry.subs[..j]) != {} then {entry.pillar} else {})
      {
        categories, subcategories := ScanKeywords(lower, sentence, entry.pillar, entry.subs[j], categories, subcategories);
        assert entry.subs[..j + 1][..j] == entry.subs[..j];
      }
      assert entry.subs[..|entry.subs|] == entry.subs;
      assert tax[..i + 1][..i] == tax[..i];
    }
    assert tax[..|tax|] == tax;
  }

  /**
   * What the names of one sentence add to `(NER_pos, NER_neg)`: a name whose
   * lower-cased form is in the table with a negative value adds its magnitude
   * to the second, one with a value of zero or more adds it to the first, and
   * a name missing from the table adds nothing.
   */
  function NerGain(table: map<string, real>, lower: string -> string, names: seq<string>): (gain: (real, real))
    ensures gain.0 >= 0.0 && gain.1 >= 0.0
  {
    if names == [] then (0.0, 0.0)
    else
      var g := NerGain(table, lower, names[..|names| - 1]);
      var key := lower(names[|names| - 1]);
      if key !in table then g
      else if table[key] < 0.0 then (g.0, g.1 - table[key])
      else (g.0 + table[key], g.1)
  }

  /** The loop over recognised names that updates `NER_pos` and `NER_neg`. */
  method AccumulateReputation(table: map<string, real>, lower: string -> string, names: seq<string>,
                              nerPos0: real, nerNeg0: real)
    returns (nerPos: real, nerNeg: real)
    ensures nerPos == nerPos0 + NerGain(table, lower, names).0
    ensures nerNeg == nerNeg0 + NerGain(table, lower, names).1
  {
    nerPos, nerNeg := nerPos0, nerNeg0;
    for i := 0 to |names|
      invariant nerPos == nerPos0 + NerGain(table, lower, names[..i]).0
      invariant nerNeg == nerNeg0 + NerGain(table, lower, names[..i]).1
    {
      assert names[..i + 1][..i] == names[..i];
      var key := lower(names[i]);
      if key in table {
        var point := table[key];
        if point < 0.0 {
          nerNeg := nerNeg + -point;
        } else {
          nerPos := nerPos + point;
        }
      }
    }
    assert names[..|names|] == names;
  }

  /** The feature dictionary holds every one of the 44 counters. */
  ghost predicate Complete(counts: map<Field, nat>)
  {
    forall f: Field :: f in counts
  }

  /** The counters after adding one to the `pol` counter of every subcategory in `subs`. */
  function Bump(counts: map<Field, nat>, pol: Polarity, subs: set<Subcategory>): (r: map<Field, nat>)
    ensures r.Keys == counts.Keys
  {
    map f | f in counts :: if f.polarity == pol && f.sub in subs then counts[f] + 1 else counts[f]
  }

  /** Bumping one more subcategory is one more increment of its counter. */
  lemma BumpOneMore(counts: map<Field, nat>, pol: Polarity, done: set<Subcategory>, sub: Subcategory)
    requires Complete(counts) && sub !in done
    ensures Bump(counts, pol, done)[Field(pol, sub) := Bump(counts, pol, done)[Field(pol, sub)] + 1]
         == Bump(counts, pol, done + {sub})
  {
    var before := Bump(counts, pol, done);
    var after := before[Field(pol, sub) := before[Field(pol, sub)] + 1];
    forall f | f in after ensures after[f] == Bump(counts, pol, done + {sub})[f] {
      if f != Field(pol, sub) {
        assert after[f] == before[f];
      }
    }
  }

  /** The loop over `subcategories_found` that increments one counter per subcategory. */
  method IncrementCounters(counts0: map<Field, nat>, pol: Polarity, subs: set<Subcategory>)
    returns (counts: map<Field, nat>)
    requires Complete(counts0)
    ensures counts == Bump(counts0, pol, subs)
  {
    counts := counts0;
    var rest := subs;
    ghost var done: set<Subcategory> := {};
    while rest != {}
      invariant done + rest == subs && done !! rest
      invariant counts == Bump(counts0, pol, done)
      decreases |rest|
    {
      var sub :| sub in rest;
      BumpOneMore(counts0, pol, done, sub);
      counts := counts[Field(pol, sub) := counts[Field(pol, sub)] + 1];
      rest := rest - {sub};
      done := done + {sub};
    }
  }

  /** The running state of the pass: the counters, the reputation sums and the sentence tallies. */
  datatype Tally = Tally(
    counts: map<Field, nat>,
    nerPos: real,
    nerNeg: real,
    esgCount: nat,
    posCount: nat,
    negCount: nat)

  /** The state before the first sentence: every counter 0, the reputation sums 0. */
  function InitialTally(): (t: Tally)
    ensures Complete(t.counts)
    ensures forall f :: t.counts[f] == 0
    ensures t.nerPos == 0.0 && t.nerNeg == 0.0
    ensures t.esgCount == 0 && t.posCount == 0 && t.negCount == 0
  {
    forall f: Field ensures f in RecordColumns() {
      RecordColumnsComplete(f);
    }
    Tally(map f | f in RecordColumns() :: 0, 0.0, 0.0, 0, 0, 0)
  }

  /** The text the sentiment model and the organisation recogniser see. */
  function ScoredText(piece: string): string
  {
    Truncate(Strip(piece))
  }

  /** The piece survives the length filter. */
  predicate LongEnough(piece: string)
  {
    |Strip(piece)| >= MinSentenceLength
  }

  /** The piece survives the length filter and some keyword occurs in it. */
  predicate Tagged(p: Pipeline, piece: string)
  {
    LongEnough(piece) && FoundKeywords(p.keywordsLower, p.lower(Strip(piece))) != []
  }

  /** The subcategories attributed to a piece. */
  function Attributed(p: Pipeline, piece: string): set<Subcategory>
  {
    SubcategoriesFound(p.lower, p.lower(Strip(piece)), p.taxonomy)
  }

  /** The counters after a tagged sentence: bumped under its label, unchanged when it is neutral. */
  function LabelCounts(counts: map<Field, nat>, sentiment: Sentiment, subs: set<Subcategory>): (r: map<Field, nat>)
    ensures r.Keys == counts.Keys
  {
    match sentiment
    case Positive => Bump(counts, Pos, subs)
    case Negative => Bump(counts, Neg, subs)
    case Neutral => counts
  }

  /**
   * The state after a tagged sentence with the given label, subcategories and
   * reputation gain.
   */
  function Count(t: Tally, sentiment: Sentiment, subs: set<Subcategory>, gain: (real, real)): (r: Tally)
    ensures r.counts.Keys == t.counts.Keys
  {
    Tally(
      LabelCounts(t.counts, sentiment, subs),
      t.nerPos + gain.0,
      t.nerNeg + gain.1,
      t.esgCount + 1,
      t.posCount + (if sentiment == Positive then 1 else 0),
      t.negCount + (if sentiment == Negative then 1 else 0))
  }

  /**
   * Scoring and counting a tagged sentence: the sentiment model and the
   * organisation recogniser both see the truncated text, and either may
   * raise, which ends the pass.
   */
  function Scored(p: Pipeline, t: Tally, text: string, subs: set<Subcategory>): (r: Option<Tally>)
    ensures r.Some? ==> r.value.counts.Keys == t.counts.Keys
  {
    match InferSentiment(p, text)
    case None => None
    case Some(score) =>
      match ExtractOrganizationNames(p, text)
      case None => None
      case Some(names) => Some(Count(t, Label(score), subs, NerGain(p.reputation, p.lower, names)))
  }

  /**
   * One iteration of the sentence loop. A piece that is too short or carries
   * no keyword leaves the state as it is; a tagged piece is scored, its
   * reputation added and its subcategories counted under its label.
   */
  function SentenceStep(p: Pipeline, t: Tally, piece: string): (r: Option<Tally>)
    ensures r.Some? ==> r.value.counts.Keys == t.counts.Keys
  {
    if !Tagged(p, piece) then Some(t) else Scored(p, t, ScoredText(piece), Attributed(p, piece))
  }

  /** The sentence loop over `pieces`, in order, from the initial state; None once a call raises. */
  function Run(p: Pipeline, pieces: seq<string>): (r: Option<Tally>)
    ensures r.Some? ==> Complete(r.value.counts)
  {
    if pieces == [] then Some(InitialTally())
    else
      match Run(p, pieces[..|pieces| - 1])
      case None => None
      case Some(t) => SentenceStep(p, t, pieces[|pieces| - 1])
  }

  /** The finished feature record: the counters, the document totals and the derived aggregates. */
  datatype FeatureRow = FeatureRow(
    filename: string,
    counts: map<Field, nat>,
    totalSentences: nat,
    totalWords: nat,
    nerPos: real,
    nerNeg: real,
    totalPosEnvironmental: nat,
    totalNegEnvironmental: nat,
    totalPosSocial: nat,
    totalNegSocial: nat,
    totalPosGovernance: nat,
    totalNegGovernance: nat,
    totalEnvironmentalMentions: nat,
    totalSocialMentions: nat,
    totalGovernanceMentions: nat,
    totalEsgMentions: nat,
    esgPosRatio: real,
    esgNegRatio: real)

  /** The sum of the `pol` counters of the listed subcategories. */
  function SumCounts(counts: map<Field, nat>, pol: Polarity, subs: seq<Subcategory>): nat
    requires Complete(counts)
  {
    if subs == [] then 0 else counts[Field(pol, subs[0])] + SumCounts(counts, pol, subs[1..])
  }

  lemma {:induction false} SumCountsAppend(counts: map<Field, nat>, pol: Polarity, a: seq<Subcategory>, b: seq<Subcategory>)
    requires Complete(counts)
    ensures SumCounts(counts, pol, a + b) == SumCounts(counts, pol, a) + SumCounts(counts, pol, b)
  {
    if a == [] {
      assert a + b == b;
    } else {
      assert (a + b)[0] == a[0];
      assert (a + b)[1..] == a[1..] + b;
      SumCountsAppend(counts, pol, a[1..], b);
    }
  }

  /** Taking element `k` out of a list takes its counter out of the sum. */
  lemma SumCountsRemove(counts: map<Field, nat>, pol: Polarity, b: seq<Subcategory>, k: nat)
    requires Complete(counts)
    requires k < |b|
    ensures SumCounts(counts, pol, b) == counts[Field(pol, b[k])] + SumCounts(counts, pol, b[..k] + b[k + 1..])
  {
    assert b == b[..k] + ([b[k]] + b[k + 1..]);
    SumCountsAppend(counts, pol, b[..k], [b[k]] + b[k + 1..]);
    assert ([b[k]] + b[k + 1..])[1..] == b[k + 1..];
    SumCountsAppend(counts, pol, b[..k], b[k + 1..]);
  }

  /** Taking element `k` out of a duplicate-free list leaves exactly the other elements, without duplicates. */
  lemma RemoveAt(b: seq<Subcategory>, k: nat)
    requires Distinct(b) && k < |b|
    ensures Distinct(b[..k] + b[k + 1..])
    ensures forall s :: s in b[..k] + b[k + 1..] <==> s in b && s != b[k]
  {
    var rest := b[..k] + b[k + 1..];
    assert |rest| == |b| - 1;
    assert forall i :: 0 <= i < |rest| ==> rest[i] == b[if i < k then i else i + 1];
    forall s | s in b && s != b[k] ensures s in rest {
      var bi :| 0 <= bi < |b| && b[bi] == s;
      if bi < k {
        assert rest[bi] == s;
      } else {
        assert rest[bi - 1] == s;
      }
    }
  }

  /** Two duplicate-free lists of the same subcategories have the same sum, whatever their order. */
  lemma {:induction false} SumCountsReorder(counts: map<Field, nat>, pol: Polarity, a: seq<Subcategory>, b: seq<Subcategory>)
    requires Complete(counts)
    requires Distinct(a) && Distinct(b)
    requires forall s :: s in a <==> s in b
    ensures SumCounts(counts, pol, a) == SumCounts(counts, pol, b)
    decreases |a|
  {
    if a == [] {
      assert forall i :: 0 <= i < |b| ==> b[i] in b;
    } else {
      assert a[0] in a;
      var k :| 0 <= k < |b| && b[k] == a[0];
      SumCountsRemove(counts, pol, b, k);
      RemoveAt(b, k);
      RemoveAt(a, 0);
      assert a[..0] + a[1..] == a[1..];
      forall s ensures s in a[1..] <==> s in b[..k] + b[k + 1..] {
        assert s in a <==> s in b;
      }
      SumCountsReorder(counts, pol, a[1..], b[..k] + b[k + 1..]);
    }
  }

  /** The `pol` total of a pillar, summed over the subcategories the mapping assigns to it. */
  function PillarTotal(counts: map<Field, nat>, pol: Polarity, pillar: Pillar): nat
    requires Complete(counts)
  {
    SumCounts(counts, pol, CategoryMapping(pillar))
  }

  /** The aggregation lists sum the same counters as the mapping does. */
  lemma AggregateMatchesMapping(counts: map<Field, nat>, pol: Polarity, pillar: Pillar)
    requires Complete(counts)
    ensures SumCounts(counts, pol, FeatureOrder(pillar)) == PillarTotal(counts, pol, pillar)
  {
    FeatureOrderMatchesMapping(pillar);
    forall s ensures s in FeatureOrder(pillar) <==> s in CategoryMapping(pillar) {
      MappingPartitions(s, pillar);
    }
    SumCountsReorder(counts, pol, FeatureOrder(pillar), CategoryMapping(pillar));
  }

  /** `max(total, 1)`. */
  function Divisor(total: nat): (d: nat)
    ensures d >= 1 && d >= total && (d == 1 || d == total)
  {
    if total >= 1 then total else 1
  }

  /** `ratio` is `part / max(total, 1)`, stated without division. */
  predicate IsShare(ratio: real, part: nat, total: nat)
  {
    ratio * Divisor(total) as real == part as real
  }

  /**
   * `esg_pos_ratio` and `esg_neg_ratio`: each count over `max(total, 1)`.
   * They split the total: with any mention they add up to 1, with none both
   * are 0.
   */
  function Ratios(pos: nat, neg: nat): (r: (real, real))
    ensures IsShare(r.0, pos, pos + neg) && IsShare(r.1, neg, pos + neg)
    ensures 0.0 <= r.0 <= 1.0 && 0.0 <= r.1 <= 1.0
    ensures pos + neg > 0 ==> r.0 + r.1 == 1.0
    ensures pos + neg == 0 ==> r.0 == 0.0 && r.1 == 0.0
  {
    var divisor := Divisor(pos + neg);
    ShareOfTotal(pos as real, neg as real, divisor as real);
    (pos as real / divisor as real, neg as real / divisor as real)
  }

  /** Two non-negative parts over a positive divisor no smaller than their sum. */
  lemma ShareOfTotal(x: real, y: real, d: real)
    requires 0.0 <= x && 0.0 <= y && 0.0 < d && x + y <= d
    ensures 0.0 <= x / d <= 1.0 && 0.0 <= y / d <= 1.0
    ensures x / d * d == x && y / d * d == y
    ensures x / d + y / d == (x + y) / d
    ensures x + y == d ==> x / d + y / d == 1.0
  {
    assert x / d + y / d == (x + y) / d;
    Fraction(x, d);
    Fraction(y, d);
  }

  /** A non-negative part of a positive divisor no smaller than it is a fraction in [0, 1]. */
  lemma Fraction(x: real, d: real)
    requires 0.0 <= x <= d && 0.0 < d
    ensures 0.0 <= x / d <= 1.0
  {
    var q := x / d;
    assert q * d == x;
    assert q > 1.0 ==> (q - 1.0) * d > 0.0;
  }

  /**
   * The aggregation after the loop. Each pillar total is the sum of that
   * pillar's counters, each mention total is positive plus negative, the
   * grand total is the sum of the six, and the two ratios are the positive
   * and the negative totals over `max(grand total, 1)`: they add up to 1
   * when there is any mention and are both 0 when there is none.
   */
  function Finalize(filename: string, sentences: nat, words: nat, t: Tally): (row: FeatureRow)
    requires Complete(t.counts)
    ensures row.filename == filename
    ensures row.counts == t.counts && row.nerPos == t.nerPos && row.nerNeg == t.nerNeg
    ensures row.totalSentences == sentences && row.totalWords == words
    ensures row.totalPosEnvironmental == PillarTotal(t.counts, Pos, Environmental)
    ensures row.totalNegEnvironmental == PillarTotal(t.counts, Neg, Environmental)
    ensures row.totalPosSocial == PillarTotal(t.counts, Pos, Social)
    ensures row.totalNegSocial == PillarTotal(t.counts, Neg, Social)
    ensures row.totalPosGovernance == PillarTotal(t.counts, Pos, Governance)
    ensures row.totalNegGovernance == PillarTotal(t.counts, Neg, Governance)
    ensures row.totalEnvironmentalMentions == row.totalPosEnvironmental + row.totalNegEnvironmental
    ensures row.totalSocialMentions == row.totalPosSocial + row.totalNegSocial
    ensures row.totalGovernanceMentions == row.totalPosGovernance + row.totalNegGovernance
    ensures row.totalEsgMentions == row.totalEnvironmentalMentions + row.totalSocialMentions + row.totalGovernanceMentions
    ensures IsShare(row.esgPosRatio,
      row.totalPosEnvironmental + row.totalPosSocial + row.totalPosGovernance, row.totalEsgMentions)
    ensures IsShare(row.esgNegRatio,
      row.totalNegEnvironmental + row.totalNegSocial + row.totalNegGovernance, row.totalEsgMentions)
    ensures 0.0 <= row.esgPosRatio <= 1.0 && 0.0 <= row.esgNegRatio <= 1.0
    ensures row.totalEsgMentions > 0 ==> row.esgPosRatio + row.esgNegRatio == 1.0
    ensures row.totalEsgMentions == 0 ==> row.esgPosRatio == 0.0 && row.esgNegRatio == 0.0
  {
    var envPos := SumCounts(t.counts, Pos, FeatureOrder(Environmental));
    var envNeg := SumCounts(t.counts, Neg, FeatureOrder(Environmental));
    var socialPos := SumCounts(t.counts, Pos, FeatureOrder(Social));
    var socialNeg := SumCounts(t.counts, Neg, FeatureOrder(Social));
    var govPos := SumCounts(t.counts, Pos, FeatureOrder(Governance));
    var govNeg := SumCounts(t.counts, Neg, FeatureOrder(Governance));
    AggregateMatchesMapping(t.counts, Pos, Environmental);
    AggregateMatchesMapping(t.counts, Neg, Environmental);
    AggregateMatchesMapping(t.counts, Pos, Social);
    AggregateMatchesMapping(t.counts, Neg, Social);
    AggregateMatchesMapping(t.counts, Pos, Governance);
    AggregateMatchesMapping(t.counts, Neg, Governance);
    RowOf(filename, t.counts, sentences, words, t.nerPos, t.nerNeg,
      envPos, envNeg, socialPos, socialNeg, govPos, govNeg)
  }

  /**
   * The record built from the six pillar totals: the mention totals are
   * their sums, and the ratios are the positive and the negative totals
   * over `max(grand total, 1)`.
   */
  function RowOf(filename: string, counts: map<Field, nat>, sentences: nat, words: nat,
                 nerPos: real, nerNeg: real, envPos: nat, envNeg: nat,
                 socialPos: nat, socialNeg: nat, govPos: nat, govNeg: nat): (row: FeatureRow)
    ensures row.filename == filename && row.counts == counts
    ensures row.totalSentences == sentences && row.totalWords == words
    ensures row.nerPos == nerPos && row.nerNeg == nerNeg
    ensures row.totalPosEnvironmental == envPos && row.totalNegEnvironmental == envNeg
    ensures row.totalPosSocial == socialPos && row.totalNegSocial == socialNeg
    ensures row.totalPosGovernance == govPos && row.totalNegGovernance == govNeg
    ensures row.totalEnvironmentalMentions == envPos + envNeg
    ensures row.totalSocialMentions == socialPos + socialNeg
    ensures row.totalGovernanceMentions == govPos + govNeg
    ensures row.totalEsgMentions == row.totalEnvironmentalMentions + row.totalSocialMentions + row.totalGovernanceMentions
    ensures IsShare(row.esgPosRatio, envPos + socialPos + govPos, row.totalEsgMentions)
    ensures IsShare(row.esgNegRatio, envNeg + socialNeg + govNeg, row.totalEsgMentions)
    ensures 0.0 <= row.esgPosRatio <= 1.0 && 0.0 <= row.esgNegRatio <= 1.0
    ensures row.totalEsgMentions > 0 ==> row.esgPosRatio + row.esgNegRatio == 1.0
    ensures row.totalEsgMentions == 0 ==> row.esgPosRatio == 0.0 && row.esgNegRatio == 0.0
  {
    var pos := envPos + socialPos + govPos;
    var neg := envNeg + socialNeg + govNeg;
    var ratios := Ratios(pos, neg);
    FeatureRow(
      filename, counts, sentences, words, nerPos, nerNeg,
      envPos, envNeg, socialPos, socialNeg, govPos, govNeg,
      envPos + envNeg, socialPos + socialNeg, govPos + govNeg, pos + neg,
      ratios.0, ratios.1)
  }

  /**
   * The whole extraction: split the text, run the sentence loop, then
   * finalise; no record at all when any collaborator call raised.
   */
  function Extract(p: Pipeline, text: string, filename: string): Option<FeatureRow>
  {
    var pieces := SplitSentences(text);
    match Run(p, pieces)
    case None => None
    case Some(t) => Some(Finalize(filename, |pieces|, |Words(text)|, t))
  }

  /** Once a collaborator call has raised, the pass stays failed whatever follows. */
  lemma {:induction false} RunStaysFailed(p: Pipeline, pieces: seq<string>, i: nat)
    requires i <= |pieces|
    requires Run(p, pieces[..i]) == None
    ensures Run(p, pieces) == None
    decreases |pieces|
  {
    if i == |pieces| {
      assert pieces[..i] == pieces;
    } else {
      var init := pieces[..|pieces| - 1];
      assert init[..i] == pieces[..i];
      RunStaysFailed(p, init, i);
    }
  }

  /** The positive and negative counter chains, one of which runs for a labelled sentence. */
  method CountUnderLabel(counts0: map<Field, nat>, sentiment: Sentiment, subs: set<Subcategory>)
    returns (counts: map<Field, nat>)
    requires Complete(counts0)
    ensures counts == LabelCounts(counts0, sentiment, subs)
  {
    counts := counts0;
    if sentiment == Positive {
      counts := IncrementCounters(counts, Pos, subs);
    } else if sentiment == Negative {
      counts := IncrementCounters(counts, Neg, subs);
    }
  }

  /** The part of the loop body after the gate, on the state `t` so far. */
  method ScoreSentence(p: Pipeline, t: Tally, sentence: string, subcategories: set<Subcategory>)
    returns (r: Option<Tally>)
    requires Complete(t.counts)
    ensures r == Scored(p, t, sentence, subcategories)
  {
    var score := InferSentiment(p, sentence);
    if score.None? {
      assert Scored(p, t, sentence, subcategories) == None;
      return None;
    }
    var sentiment := Label(score.value);
    var names := ExtractOrganizationNames(p, sentence);
    if names.None? {
      assert Scored(p, t, sentence, subcategories) == None;
      return None;
    }
    var nerPos, nerNeg := AccumulateReputation(p.reputation, p.lower, names.value, t.nerPos, t.nerNeg);
    var counts := CountUnderLabel(t.counts, sentiment, subcategories);
    var posCount := t.posCount + (if sentiment == Positive then 1 else 0);
    var negCount := t.negCount + (if sentiment == Negative then 1 else 0);
    r := Some(Tally(counts, nerPos, nerNeg, t.esgCount + 1, posCount, negCount));
    ghost var next := Count(t, sentiment, subcategories, NerGain(p.reputation, p.lower, names.value));
    assert Scored(p, t, sentence, subcategories) == Some(next);
    assert next.counts == counts && next.nerPos == nerPos && next.nerNeg == nerNeg;
    assert next.esgCount == t.esgCount + 1 && next.posCount == posCount && next.negCount == negCount;
  }

  /**
   * The body of the sentence loop for one piece, on the state `t` so far;
   * None when the sentiment model or the organisation recogniser raised.
   */
  method ProcessSentence(p: Pipeline, t: Tally, piece: string) returns (r: Option<Tally>)
    requires Complete(t.counts)
    ensures r == SentenceStep(p, t, piece)
  {
    var sentence := Strip(piece);
    if |sentence| < MinSentenceLength {
      return Some(t);
    }
    var sentenceLower := p.lower(sentence);
    var found := FindKeywords(p.keywordsLower, sentenceLower);
    if found == [] {
      return Some(t);
    }
    var categories, subcategories := FindCategories(p.taxonomy, p.lower, sentenceLower);
    sentence := Truncate(sentence);
    r := ScoreSentence(p, t, sentence, subcategories);
  }

  /** The sentence loop of `process_esg_files_working`, from the initial state. */
  method RunSentences(p: Pipeline, sentences: seq<string>) returns (r: Option<Tally>)
    ensures r == Run(p, sentences)
  {
    var t := InitialTally();
    for i := 0 to |sentences|
      invariant Run(p, sentences[..i]) == Some(t)
    {
      assert sentences[..i + 1][..i] == sentences[..i];
      var next := ProcessSentence(p, t, sentences[i]);
      if next.None? {
        RunStaysFailed(p, sentences, i + 1);
        return None;
      }
      t := next.value;
    }
    assert sentences[..|sentences|] == sentences;
    r := Some(t);
  }

  /**
   * `process_esg_files_working`: the record of one document, or None when
   * the sentiment model or the organisation recogniser raised.
   */
  method ProcessEsgFilesWorking(p: Pipeline, text: string, filename: string) returns (row: Option<FeatureRow>)
    ensures row == Extract(p, text, filename)
  {
    var sentences := SplitSentences(text);
    var totalSentences := |sentences|;
    var totalWords := |Words(text)|;
    var tally := RunSentences(p, sentences);
    if tally.None? {
      return None;
    }
    row := Some(Finalize(filename, totalSentences, totalWords, tally.value));
  }
}
