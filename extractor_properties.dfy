/**
 * Properties of the extraction pass: what the length filter, the keyword
 * gate, the labelling thresholds, the counters and the reputation sums
 * guarantee about the feature record.
 */
module ExtractorProperties {
  import opened Wrappers
  import opened Text
  import opened Taxonomy
  import opened Extractor

  // ----- The length filter -------------------------------------------------

  /** The pieces that survive the length filter, in order. */
  function LongPieces(pieces: seq<string>): (r: seq<string>)
    ensures |r| <= |pieces|
  {
    if pieces == [] then []
    else
      var n := |pieces| - 1;
      LongPieces(pieces[..n]) + (if LongEnough(pieces[n]) then [pieces[n]] else [])
  }

  /** Running over one more piece is one more step from the state before it. */
  lemma RunSnoc(p: Pipeline, ps: seq<string>, x: string)
    ensures Run(p, ps + [x]) == (if Run(p, ps).None? then None else SentenceStep(p, Run(p, ps).value, x))
  {
    var all := ps + [x];
    assert all[..|all| - 1] == ps;
    assert all[|all| - 1] == x;
  }

  /** The last piece is one step on the state after the others. */
  lemma RunLast(p: Pipeline, ps: seq<string>)
    requires ps != []
    ensures Run(p, ps) == (if Run(p, ps[..|ps| - 1]).None? then None
      else SentenceStep(p, Run(p, ps[..|ps| - 1]).value, ps[|ps| - 1]))
  {
  }

  /** A piece under 10 stripped characters is skipped. */
  lemma SkipShort(p: Pipeline, t: Tally, x: string)
    requires !LongEnough(x)
    ensures SentenceStep(p, t, x) == Some(t)
  {
  }

  /**
   * A piece whose stripped length is under 10 characters has no effect on
   * the pass: running over all pieces and running over the long ones only
   * end in the same state, counters and reputation sums included.
   */
  lemma {:induction false} ShortPiecesChangeNothing(p: Pipeline, pieces: seq<string>)
    ensures Run(p, pieces) == Run(p, LongPieces(pieces))
  {
    if pieces != [] {
      var n := |pieces| - 1;
      var init, x := pieces[..n], pieces[n];
      ShortPiecesChangeNothing(p, init);
      var kept := LongPieces(init);
      if LongEnough(x) {
        RunSnoc(p, kept, x);
      } else {
        assert kept + [] == kept;
        if Run(p, init).Some? {
          SkipShort(p, Run(p, init).value, x);
        }
      }
    }
  }

  /**
   * The document totals count every piece and every word, whether or not a
   * piece survives the filter: `total_sentences` is one more than the number
   * of delimiter runs and `total_words` is the number of whitespace words.
   */
  lemma RecordTotals(p: Pipeline, text: string, filename: string)
    requires Extract(p, text, filename).Some?
    ensures Extract(p, text, filename).value.totalSentences == |DelimiterRunsOf(text)| + 1
    ensures Extract(p, text, filename).value.totalWords == |Words(text)|
    ensures Extract(p, text, filename).value.filename == filename
  {
  }

  // ----- The keyword gate and the attribution --------------------------------

  lemma {:induction false} HitsExists(lower: string -> string, sentence: string, keywords: seq<string>)
    ensures Hits(lower, sentence, keywords) <==> exists k :: k in keywords && Contains(sentence, lower(k))
  {
    if keywords != [] {
      var n := |keywords| - 1;
      HitsExists(lower, sentence, keywords[..n]);
      assert keywords == keywords[..n] + [keywords[n]];
    }
  }

  lemma {:induction false} SubsFoundMembership(lower: string -> string, sentence: string, subs: seq<SubEntry>, s: Subcategory)
    ensures s in SubsFound(lower, sentence, subs) <==>
      exists j :: 0 <= j < |subs| && subs[j].sub == s && Hits(lower, sentence, subs[j].keywords)
  {
    if subs != [] {
      var n := |subs| - 1;
      SubsFoundMembership(lower, sentence, subs[..n], s);
      assert forall j :: 0 <= j < n ==> subs[..n][j] == subs[j];
    }
  }

  /** A subcategory is attributed exactly when some keyword of one of its entries occurs. */
  lemma {:induction false} SubcategoriesFoundMembership(lower: string -> string, sentence: string, tax: Taxonomy, s: Subcategory)
    ensures s in SubcategoriesFound(lower, sentence, tax) <==>
      exists i, j :: 0 <= i < |tax| && 0 <= j < |tax[i].subs| && tax[i].subs[j].sub == s
        && Hits(lower, sentence, tax[i].subs[j].keywords)
  {
    if tax != [] {
      var n := |tax| - 1;
      SubcategoriesFoundMembership(lower, sentence, tax[..n], s);
      SubsFoundMembership(lower, sentence, tax[n].subs, s);
      assert forall i :: 0 <= i < n ==> tax[..n][i] == tax[i];
    }
  }

  lemma {:induction false} CategoriesFoundMembership(lower: string -> string, sentence: string, tax: Taxonomy, c: Pillar)
    ensures c in CategoriesFound(lower, sentence, tax) <==>
      exists i :: 0 <= i < |tax| && tax[i].pillar == c && SubsFound(lower, sentence, tax[i].subs) != {}
  {
    if tax != [] {
      var n := |tax| - 1;
      CategoriesFoundMembership(lower, sentence, tax[..n], c);
      assert forall i :: 0 <= i < n ==> tax[..n][i] == tax[i];
    }
  }

  /**
   * With the taxonomy shaped like the mapping, `categories_found` is exactly
   * the set of pillars of the attributed subcategories.
   */
  lemma CategoryHasSubcategory(lower: string -> string, sentence: string, tax: Taxonomy, c: Pillar)
    requires Conforms(tax) && c in CategoriesFound(lower, sentence, tax)
    ensures exists s :: s in SubcategoriesFound(lower, sentence, tax) && PillarOf(s) == c
  {
    CategoriesFoundMembership(lower, sentence, tax, c);
    var i :| 0 <= i < |tax| && tax[i].pillar == c && SubsFound(lower, sentence, tax[i].subs) != {};
    var s :| s in SubsFound(lower, sentence, tax[i].subs);
    SubsFoundMembership(lower, sentence, tax[i].subs, s);
    var j :| 0 <= j < |tax[i].subs| && tax[i].subs[j].sub == s && Hits(lower, sentence, tax[i].subs[j].keywords);
    SubcategoriesFoundMembership(lower, sentence, tax, s);
    assert s == CategoryMapping(c)[j];
    MappingPartitions(s, c);
  }

  lemma SubcategoryGivesCategory(lower: string -> string, sentence: string, tax: Taxonomy, s: Subcategory)
    requires Conforms(tax) && s in SubcategoriesFound(lower, sentence, tax)
    ensures PillarOf(s) in CategoriesFound(lower, sentence, tax)
  {
    SubcategoriesFoundMembership(lower, sentence, tax, s);
    var i, j :| 0 <= i < |tax| && 0 <= j < |tax[i].subs| && tax[i].subs[j].sub == s
      && Hits(lower, sentence, tax[i].subs[j].keywords);
    assert s == CategoryMapping(tax[i].pillar)[j];
    MappingPartitions(s, tax[i].pillar);
    SubsFoundMembership(lower, sentence, tax[i].subs, s);
    CategoriesFoundMembership(lower, sentence, tax, PillarOf(s));
  }

  /**
   * With the taxonomy shaped like the mapping, `categories_found` is exactly
   * the set of pillars of the attributed subcategories.
   */
  lemma CategoriesFollowSubcategories(lower: string -> string, sentence: string, tax: Taxonomy, c: Pillar)
    requires Conforms(tax)
    ensures c in CategoriesFound(lower, sentence, tax) <==>
      exists s :: s in SubcategoriesFound(lower, sentence, tax) && PillarOf(s) == c
  {
    if c in CategoriesFound(lower, sentence, tax) {
      CategoryHasSubcategory(lower, sentence, tax, c);
    }
    if exists s :: s in SubcategoriesFound(lower, sentence, tax) && PillarOf(s) == c {
      var s :| s in SubcategoriesFound(lower, sentence, tax) && PillarOf(s) == c;
      SubcategoryGivesCategory(lower, sentence, tax, s);
    }
  }

  /** Some taxonomy keyword, lower-cased, occurs in the sentence. */
  ghost predicate SomeKeywordOccurs(p: Pipeline, sentence: string)
  {
    exists i, j, k :: 0 <= i < |p.taxonomy| && 0 <= j < |p.taxonomy[i].subs|
      && k in p.taxonomy[i].subs[j].keywords && Contains(sentence, p.lower(k))
  }

  lemma GateHasKeyword(p: Pipeline, sentence: string)
    requires Ready(p) && FoundKeywords(p.keywordsLower, sentence) != []
    ensures SomeKeywordOccurs(p, sentence)
  {
    var found := FoundKeywords(p.keywordsLower, sentence);
    var flat := Flatten(p.taxonomy);
    assert found[0] in found;
    var idx :| 0 <= idx < |p.keywordsLower| && p.keywordsLower[idx] == found[0];
    var kw := flat[idx];
    FlattenMembership(p.taxonomy, kw);
    var i, j :| 0 <= i < |p.taxonomy| && 0 <= j < |p.taxonomy[i].subs| && kw in p.taxonomy[i].subs[j].keywords;
    assert Contains(sentence, p.lower(kw));
  }

  lemma KeywordPassesGate(p: Pipeline, sentence: string)
    requires Ready(p) && SomeKeywordOccurs(p, sentence)
    ensures FoundKeywords(p.keywordsLower, sentence) != []
  {
    var flat := Flatten(p.taxonomy);
    var i, j, k :| 0 <= i < |p.taxonomy| && 0 <= j < |p.taxonomy[i].subs|
      && k in p.taxonomy[i].subs[j].keywords && Contains(sentence, p.lower(k));
    FlattenMembership(p.taxonomy, k);
    var idx :| 0 <= idx < |flat| && flat[idx] == k;
    assert p.keywordsLower[idx] == p.lower(k);
    assert p.lower(k) in FoundKeywords(p.keywordsLower, sentence);
  }

  /** The flat gate fires exactly when some taxonomy keyword occurs. */
  lemma GateMeansKeyword(p: Pipeline, sentence: string)
    requires Ready(p)
    ensures FoundKeywords(p.keywordsLower, sentence) != [] <==> SomeKeywordOccurs(p, sentence)
  {
    if FoundKeywords(p.keywordsLower, sentence) != [] {
      GateHasKeyword(p, sentence);
    }
    if SomeKeywordOccurs(p, sentence) {
      KeywordPassesGate(p, sentence);
    }
  }

  lemma AttributionMeansKeyword(p: Pipeline, sentence: string)
    ensures SubcategoriesFound(p.lower, sentence, p.taxonomy) != {} <==> SomeKeywordOccurs(p, sentence)
  {
    var tax := p.taxonomy;
    var found := SubcategoriesFound(p.lower, sentence, tax);
    if found != {} {
      var s :| s in found;
      SubcategoriesFoundMembership(p.lower, sentence, tax, s);
      var i, j :| 0 <= i < |tax| && 0 <= j < |tax[i].subs| && tax[i].subs[j].sub == s
        && Hits(p.lower, sentence, tax[i].subs[j].keywords);
      HitsExists(p.lower, sentence, tax[i].subs[j].keywords);
    }
    if SomeKeywordOccurs(p, sentence) {
      var i, j, k :| 0 <= i < |tax| && 0 <= j < |tax[i].subs|
        && k in tax[i].subs[j].keywords && Contains(sentence, p.lower(k));
      HitsExists(p.lower, sentence, tax[i].subs[j].keywords);
      SubcategoriesFoundMembership(p.lower, sentence, tax, tax[i].subs[j].sub);
    }
  }

  /**
   * The flat gate and the nested attribution agree: with the flat list built
   * from the taxonomy, a sentence has some found keyword exactly when some
   * subcategory is attributed to it.
   */
  lemma GateMatchesAttribution(p: Pipeline, sentence: string)
    requires Ready(p)
    ensures FoundKeywords(p.keywordsLower, sentence) != [] <==> SubcategoriesFound(p.lower, sentence, p.taxonomy) != {}
  {
    GateMeansKeyword(p, sentence);
    AttributionMeansKeyword(p, sentence);
  }

  /** Every sentence that passes the gate is attributed at least one subcategory. */
  lemma TaggedHasSubcategory(p: Pipeline, piece: string)
    requires Ready(p) && Tagged(p, piece)
    ensures Attributed(p, piece) != {}
  {
    GateMatchesAttribution(p, p.lower(Strip(piece)));
  }

  // ----- What the models see ------------------------------------------------

  /**
   * The text a kept piece is scored on: never blank, so the empty-input
   * error of `infer_sentiment` cannot fire; at most 50 words, the stripped
   * piece itself when it has no more; and the recogniser sees at most 512
   * characters of it.
   */
  lemma ScoredTextOfKeptPiece(p: Pipeline, piece: string)
    requires LongEnough(piece)
    ensures !Blank(ScoredText(piece))
    ensures InferSentiment(p, ScoredText(piece)) == p.sentiment(ScoredText(piece))
    ensures |Words(ScoredText(piece))| <= MaxScoredWords
    ensures |Words(Strip(piece))| <= MaxScoredWords ==> ScoredText(piece) == Strip(piece)
    ensures |Words(Strip(piece))| > MaxScoredWords ==>
      Words(ScoredText(piece)) == Words(Strip(piece))[..MaxScoredWords]
    ensures |NerInput(ScoredText(piece))| <= MaxNerChars
  {
    KeptPieceNotBlank(piece);
  }

  /** The text a kept piece is scored on is not blank, so `infer_sentiment` does not refuse it. */
  lemma KeptPieceNotBlank(piece: string)
    requires LongEnough(piece)
    ensures !Blank(ScoredText(piece))
  {
    var s := Strip(piece);
    assert s != [];
    assert !Blank(s) by {
      assert !IsSpace(s[0]);
    }
    var r := ScoredText(piece);
    if |Words(s)| > MaxScoredWords {
      assert Words(r) == Words(s)[..MaxScoredWords];
      assert |Words(r)| == MaxScoredWords;
      assert !Blank(r);
    } else {
      assert r == s;
      assert !Blank(r);
    }
  }

  // ----- One tagged sentence -----------------------------------------------

  /** The sentence a collaborator call raises on: a tagged one whose scoring or recognition fails. */
  predicate StepFails(p: Pipeline, piece: string)
  {
    Tagged(p, piece)
      && (p.sentiment(ScoredText(piece)).None? || p.organizations(NerInput(ScoredText(piece))).None?)
  }

  /** A step ends the pass exactly on a sentence where a collaborator call raises. */
  lemma StepFailsIff(p: Pipeline, t: Tally, piece: string)
    ensures SentenceStep(p, t, piece).None? <==> StepFails(p, piece)
  {
    if Tagged(p, piece) {
      KeptPieceNotBlank(piece);
    }
  }

  /**
   * A tagged sentence with score `score` and recognised names `names` is
   * counted: one more tagged sentence, its label, its attributed
   * subcategories and the reputation of its names.
   */
  lemma StepOfTagged(p: Pipeline, t: Tally, piece: string, score: Score, names: seq<string>)
    requires Tagged(p, piece)
    requires p.sentiment(ScoredText(piece)) == Some(score)
    requires p.organizations(NerInput(ScoredText(piece))) == Some(names)
    ensures SentenceStep(p, t, piece)
         == Some(Count(t, Label(score), Attributed(p, piece), NerGain(p.reputation, p.lower, names)))
  {
    KeptPieceNotBlank(piece);
  }

  /** The counter polarity a label bumps: positive bumps `pos_*`, negative `neg_*`, neutral none. */
  predicate Bumps(sentiment: Sentiment, pol: Polarity)
  {
    (sentiment == Positive && pol == Pos) || (sentiment == Negative && pol == Neg)
  }

  /**
   * Multi-label counting: every counter of the label's polarity whose
   * subcategory is attributed goes up by exactly one, and no other counter
   * changes.
   */
  lemma CountIncrementsOnce(t: Tally, sentiment: Sentiment, subs: set<Subcategory>, gain: (real, real), f: Field)
    requires Complete(t.counts)
    ensures Count(t, sentiment, subs, gain).counts[f]
         == t.counts[f] + (if Bumps(sentiment, f.polarity) && f.sub in subs then 1 else 0)
  {
  }

  /**
   * A neutral sentence, score in [0.5, 0.7), changes no counter and neither
   * label tally, but its names still add to the reputation sums.
   */
  lemma NeutralStep(p: Pipeline, t: Tally, piece: string, score: Score, names: seq<string>)
    requires Tagged(p, piece)
    requires p.sentiment(ScoredText(piece)) == Some(score) && 0.5 <= score < 0.7
    requires p.organizations(NerInput(ScoredText(piece))) == Some(names)
    ensures SentenceStep(p, t, piece).Some?
    ensures SentenceStep(p, t, piece).value.counts == t.counts
    ensures SentenceStep(p, t, piece).value.posCount == t.posCount
    ensures SentenceStep(p, t, piece).value.negCount == t.negCount
    ensures SentenceStep(p, t, piece).value.esgCount == t.esgCount + 1
    ensures SentenceStep(p, t, piece).value.nerPos == t.nerPos + NerGain(p.reputation, p.lower, names).0
    ensures SentenceStep(p, t, piece).value.nerNeg == t.nerNeg + NerGain(p.reputation, p.lower, names).1
  {
    StepOfTagged(p, t, piece, score, names);
  }

  /**
   * A sentence scored at 0.7 or more adds one to the `pos_` counter of each
   * attributed subcategory and changes nothing else among the counters.
   */
  lemma PositiveStep(p: Pipeline, t: Tally, piece: string, score: Score, names: seq<string>, f: Field)
    requires Complete(t.counts)
    requires Tagged(p, piece)
    requires p.sentiment(ScoredText(piece)) == Some(score) && score >= 0.7
    requires p.organizations(NerInput(ScoredText(piece))) == Some(names)
    ensures SentenceStep(p, t, piece).Some?
    ensures SentenceStep(p, t, piece).value.counts[f]
         == t.counts[f] + (if f.polarity == Pos && f.sub in Attributed(p, piece) then 1 else 0)
    ensures SentenceStep(p, t, piece).value.posCount == t.posCount + 1
    ensures SentenceStep(p, t, piece).value.negCount == t.negCount
  {
    StepOfTagged(p, t, piece, score, names);
    CountIncrementsOnce(t, Positive, Attributed(p, piece), NerGain(p.reputation, p.lower, names), f);
  }

  /**
   * A sentence scored under 0.5 adds one to the `neg_` counter of each
   * attributed subcategory and changes nothing else among the counters.
   */
  lemma NegativeStep(p: Pipeline, t: Tally, piece: string, score: Score, names: seq<string>, f: Field)
    requires Complete(t.counts)
    requires Tagged(p, piece)
    requires p.sentiment(ScoredText(piece)) == Some(score) && score < 0.5
    requires p.organizations(NerInput(ScoredText(piece))) == Some(names)
    ensures SentenceStep(p, t, piece).Some?
    ensures SentenceStep(p, t, piece).value.counts[f]
         == t.counts[f] + (if f.polarity == Neg && f.sub in Attributed(p, piece) then 1 else 0)
    ensures SentenceStep(p, t, piece).value.negCount == t.negCount + 1
    ensures SentenceStep(p, t, piece).value.posCount == t.posCount
  {
    StepOfTagged(p, t, piece, score, names);
    CountIncrementsOnce(t, Negative, Attributed(p, piece), NerGain(p.reputation, p.lower, names), f);
  }

  /**
   * The record key a counter is written under carries the tag of the pillar
   * the mapping assigns its subcategory to.
   */
  lemma ColumnPrefixMatchesMapping(f: Field, pillar: Pillar)
    requires f.sub in CategoryMapping(pillar)
    ensures PolarityTag(f.polarity) + "_" + PillarTag(pillar) + "_" <= ColumnName(f)
  {
    MappingPartitions(f.sub, pillar);
    var head := PolarityTag(f.polarity) + "_" + PillarTag(pillar) + "_";
    assert ColumnName(f) == head + SubName(f.sub);
  }

  // ----- Reputation sums -----------------------------------------------------

  /** The gain of a list of names is the sum of the gains of its parts. */
  lemma {:induction false} NerGainAppend(table: map<string, real>, lower: string -> string, a: seq<string>, b: seq<string>)
    ensures NerGain(table, lower, a + b).0 == NerGain(table, lower, a).0 + NerGain(table, lower, b).0
    ensures NerGain(table, lower, a + b).1 == NerGain(table, lower, a).1 + NerGain(table, lower, b).1
  {
    if b == [] {
      assert a + b == a;
    } else {
      var n := |b| - 1;
      NerGainAppend(table, lower, a, b[..n]);
      var ab := a + b;
      assert ab[..|ab| - 1] == a + b[..n];
      assert ab[|ab| - 1] == b[n];
    }
  }

  /**
   * What one name adds: nothing when its lower-cased form is not in the
   * table, the magnitude of a negative value to `NER_neg`, a value of zero
   * or more to `NER_pos`.
   */
  lemma NerGainOfName(table: map<string, real>, lower: string -> string, name: string)
    ensures lower(name) !in table ==> NerGain(table, lower, [name]) == (0.0, 0.0)
    ensures lower(name) in table && table[lower(name)] < 0.0 ==>
      NerGain(table, lower, [name]) == (0.0, -table[lower(name)])
    ensures lower(name) in table && table[lower(name)] >= 0.0 ==>
      NerGain(table, lower, [name]) == (table[lower(name)], 0.0)
  {
    assert [name][..0] == [];
  }

  /** Every counter, tally and reputation sum of `a` is at most that of `b`. */
  predicate Below(a: Tally, b: Tally)
  {
    && a.nerPos <= b.nerPos && a.nerNeg <= b.nerNeg
    && a.esgCount <= b.esgCount && a.posCount <= b.posCount && a.negCount <= b.negCount
    && a.counts.Keys == b.counts.Keys
    && forall f :: f in a.counts ==> a.counts[f] <= b.counts[f]
  }

  lemma StepGrows(p: Pipeline, t: Tally, x: string)
    ensures SentenceStep(p, t, x).Some? ==> Below(t, SentenceStep(p, t, x).value)
  {
  }

  /**
   * Nothing the pass accumulates ever decreases: the state after any prefix
   * of the pieces is below the final state.
   */
  lemma {:induction false} RunGrows(p: Pipeline, pieces: seq<string>, i: nat)
    requires i <= |pieces| && Run(p, pieces).Some?
    ensures Run(p, pieces[..i]).Some? && Below(Run(p, pieces[..i]).value, Run(p, pieces).value)
    decreases |pieces|
  {
    if i == |pieces| {
      assert pieces[..i] == pieces;
    } else {
      var n := |pieces| - 1;
      var init, x := pieces[..n], pieces[n];
      RunGrows(p, init, i);
      assert init[..i] == pieces[..i];
      LastStepGrows(p, pieces);
      BelowTrans(Run(p, pieces[..i]).value, Run(p, init).value, Run(p, pieces).value);
    }
  }

  /** The state before the last piece is below the state after it. */
  lemma LastStepGrows(p: Pipeline, ps: seq<string>)
    requires ps != [] && Run(p, ps).Some?
    ensures Run(p, ps[..|ps| - 1]).Some? && Below(Run(p, ps[..|ps| - 1]).value, Run(p, ps).value)
  {
    RunLast(p, ps);
    StepGrows(p, Run(p, ps[..|ps| - 1]).value, ps[|ps| - 1]);
  }

  lemma BelowTrans(a: Tally, b: Tally, c: Tally)
    requires Below(a, b) && Below(b, c)
    ensures Below(a, c)
  {
  }

  /** `NER_pos` and `NER_neg` start at 0 and so are never negative. */
  lemma RunNerNonNegative(p: Pipeline, pieces: seq<string>)
    requires Run(p, pieces).Some?
    ensures Run(p, pieces).value.nerPos >= 0.0 && Run(p, pieces).value.nerNeg >= 0.0
  {
    RunGrows(p, pieces, 0);
    assert pieces[..0] == [];
  }

  // ----- Labelled sentences against counters -----------------------------------

  /** The 22 subcategories, pillar by pillar in mapping order. */
  function AllSubcategories(): (all: seq<Subcategory>)
    ensures forall s :: s in all
  {
    var all := CategoryMapping(Environmental) + CategoryMapping(Social) + CategoryMapping(Governance);
    forall s ensures s in all {
      MappingCovers(s);
    }
    all
  }

  /**
   * Bumping never lowers a sum of counters, and it raises the sum of its own
   * polarity by at least one when a bumped subcategory is listed.
   */
  lemma {:induction false} SumCountsBump(counts: map<Field, nat>, pol: Polarity, subs: set<Subcategory>,
                                         q: Polarity, l: seq<Subcategory>)
    requires Complete(counts)
    ensures Complete(Bump(counts, pol, subs))
    ensures SumCounts(Bump(counts, pol, subs), q, l) >= SumCounts(counts, q, l)
    ensures q == pol && (exists s :: s in l && s in subs) ==>
      SumCounts(Bump(counts, pol, subs), q, l) >= SumCounts(counts, q, l) + 1
  {
    var bumped := Bump(counts, pol, subs);
    assert Complete(bumped) by {
      forall f: Field ensures f in bumped {
        assert f in counts;
      }
    }
    if l != [] {
      SumCountsBump(counts, pol, subs, q, l[1..]);
      if q == pol && (exists s :: s in l && s in subs) {
        var s :| s in l && s in subs;
        if s != l[0] {
          assert s in l[1..];
        }
      }
    }
  }

  /**
   * Every labelled sentence bumps at least one counter of its polarity, and
   * there are no more labelled sentences than tagged ones.
   */
  ghost predicate TallyBounds(t: Tally)
  {
    && Complete(t.counts)
    && t.posCount + t.negCount <= t.esgCount
    && t.posCount <= SumCounts(t.counts, Pos, AllSubcategories())
    && t.negCount <= SumCounts(t.counts, Neg, AllSubcategories())
  }

  lemma LabelKeepsBounds(t: Tally, sentiment: Sentiment, subs: set<Subcategory>, gain: (real, real))
    requires TallyBounds(t) && subs != {}
    ensures TallyBounds(Count(t, sentiment, subs, gain))
  {
    var s :| s in subs;
    assert s in AllSubcategories();
    var all := AllSubcategories();
    match sentiment
    case Positive =>
      SumCountsBump(t.counts, Pos, subs, Pos, all);
      SumCountsBump(t.counts, Pos, subs, Neg, all);
    case Negative =>
      SumCountsBump(t.counts, Neg, subs, Pos, all);
      SumCountsBump(t.counts, Neg, subs, Neg, all);
    case Neutral =>
  }

  lemma StepKeepsBounds(p: Pipeline, t: Tally, x: string)
    requires Ready(p) && TallyBounds(t) && SentenceStep(p, t, x).Some?
    ensures TallyBounds(SentenceStep(p, t, x).value)
    ensures SentenceStep(p, t, x).value.esgCount <= t.esgCount + 1
  {
    if Tagged(p, x) {
      TaggedHasSubcategory(p, x);
      StepFailsIff(p, t, x);
      var score := p.sentiment(ScoredText(x)).value;
      var names := p.organizations(NerInput(ScoredText(x))).value;
      StepOfTagged(p, t, x, score, names);
      LabelKeepsBounds(t, Label(score), Attributed(p, x), NerGain(p.reputation, p.lower, names));
    }
  }

  /**
   * After the pass, at most one sentence per piece was tagged, every
   * labelled sentence was tagged, and the positive (negative) sentences are
   * no more than the `pos_` (`neg_`) counters add up to.
   */
  lemma {:induction false} RunCountBounds(p: Pipeline, pieces: seq<string>)
    requires Ready(p) && Run(p, pieces).Some?
    ensures TallyBounds(Run(p, pieces).value)
    ensures Run(p, pieces).value.esgCount <= |pieces|
  {
    if pieces != [] {
      var n := |pieces| - 1;
      RunCountBounds(p, pieces[..n]);
      StepKeepsBounds(p, Run(p, pieces[..n]).value, pieces[n]);
    }
  }

  /**
   * In the record, the pillar totals of one polarity add up to the sum of
   * all its counters, and so to at least the number of sentences labelled
   * with it.
   */
  lemma RecordCoversLabels(p: Pipeline, text: string, filename: string)
    requires Ready(p) && Extract(p, text, filename).Some?
    ensures var row := Extract(p, text, filename).value;
      var t := Run(p, SplitSentences(text)).value;
      && row.totalPosEnvironmental + row.totalPosSocial + row.totalPosGovernance == SumCounts(t.counts, Pos, AllSubcategories())
      && row.totalNegEnvironmental + row.totalNegSocial + row.totalNegGovernance == SumCounts(t.counts, Neg, AllSubcategories())
      && t.posCount <= row.totalPosEnvironmental + row.totalPosSocial + row.totalPosGovernance
      && t.negCount <= row.totalNegEnvironmental + row.totalNegSocial + row.totalNegGovernance
  {
    var t := Run(p, SplitSentences(text)).value;
    RunCountBounds(p, SplitSentences(text));
    var e, so, g := CategoryMapping(Environmental), CategoryMapping(Social), CategoryMapping(Governance);
    SumCountsAppend(t.counts, Pos, e + so, g);
    SumCountsAppend(t.counts, Pos, e, so);
    SumCountsAppend(t.counts, Neg, e + so, g);
    SumCountsAppend(t.counts, Neg, e, so);
  }

  // ----- Fail-fast -----------------------------------------------------------

  /** Some element of `xs` satisfies `P`. */
  ghost predicate AnyOf<T>(P: T -> bool, xs: seq<T>)
  {
    exists i :: 0 <= i < |xs| && P(xs[i])
  }

  lemma AnyOfSnoc<T>(P: T -> bool, xs: seq<T>)
    requires xs != []
    ensures AnyOf(P, xs) <==> AnyOf(P, xs[..|xs| - 1]) || P(xs[|xs| - 1])
  {
    var n := |xs| - 1;
    var init := xs[..n];
    if AnyOf(P, xs) {
      var i :| 0 <= i < |xs| && P(xs[i]);
      if i < n {
        assert init[i] == xs[i];
      }
    }
    if AnyOf(P, init) {
      var i :| 0 <= i < |init| && P(init[i]);
      assert xs[i] == init[i];
    }
  }

  function Raises(p: Pipeline): string -> bool
  {
    piece => StepFails(p, piece)
  }

  /** Some piece of `pieces` makes a collaborator call raise. */
  ghost predicate SomeStepFails(p: Pipeline, pieces: seq<string>)
  {
    AnyOf(Raises(p), pieces)
  }

  lemma RunFailsSnoc(p: Pipeline, pieces: seq<string>)
    requires pieces != []
    ensures Run(p, pieces).None? <==>
      Run(p, pieces[..|pieces| - 1]).None? || StepFails(p, pieces[|pieces| - 1])
  {
    var init := pieces[..|pieces| - 1];
    if Run(p, init).Some? {
      StepFailsIff(p, Run(p, init).value, pieces[|pieces| - 1]);
    }
  }

  /** The pass produces no state exactly when a collaborator call raises on some piece. */
  lemma {:induction false} RunFailsIff(p: Pipeline, pieces: seq<string>)
    ensures Run(p, pieces).None? <==> SomeStepFails(p, pieces)
  {
    if pieces != [] {
      RunFailsIff(p, pieces[..|pieces| - 1]);
      RunFailsSnoc(p, pieces);
      AnyOfSnoc(Raises(p), pieces);
    }
  }

  /** `process_esg_files_working` returns no record exactly when a collaborator call raises on some piece. */
  lemma ExtractFailsIff(p: Pipeline, text: string, filename: string)
    ensures Extract(p, text, filename).None? <==> SomeStepFails(p, SplitSentences(text))
  {
    RunFailsIff(p, SplitSentences(text));
  }
}
