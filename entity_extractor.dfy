/** The server's addressee extraction. The spaCy pipeline is not modelled: its
    tokens (text and part of speech), named entities (text and label) and noun chunks
    are taken as given sequences. */
module EntityExtractor {
  import opened Wrappers
  import opened Text

  // ---------------------------------------------------------------------------
  // The twelve addressing patterns
  // ---------------------------------------------------------------------------

  /** The two shapes the patterns take: keyword\s+(\w+) and (\w+),\s+phrase. */
  datatype Pattern =
    | KeywordThenWord(keyword: string)
    | WordThenPhrase(phrase: string)

  /** The patterns in the order they are tried. */
  const Patterns: seq<Pattern> := [
    KeywordThenWord("Hey"),
    KeywordThenWord("Hi"),
    KeywordThenWord("Hello"),
    WordThenPhrase("this is for you"),
    KeywordThenWord("This is for"),
    KeywordThenWord("For"),
    WordThenPhrase("listen"),
    WordThenPhrase("please"),
    WordThenPhrase("can you"),
    WordThenPhrase("I need"),
    WordThenPhrase("I want"),
    KeywordThenWord("Listen")
  ]

  /** Length of the longest run of word characters starting at i (a greedy \w+). */
  function WordRun(s: string, i: nat): (n: nat)
    requires i <= |s|
    ensures i + n <= |s|
    ensures forall k :: i <= k < i + n ==> IsWordChar(s[k])
    ensures i + n < |s| ==> !IsWordChar(s[i + n])
    decreases |s| - i
  {
    if i < |s| && IsWordChar(s[i]) then 1 + WordRun(s, i + 1) else 0
  }

  /** Length of the longest run of whitespace starting at i (a greedy \s+). */
  function SpaceRun(s: string, i: nat): (n: nat)
    requires i <= |s|
    ensures i + n <= |s|
    ensures forall k :: i <= k < i + n ==> IsPySpace(s[k])
    ensures i + n < |s| ==> !IsPySpace(s[i + n])
    decreases |s| - i
  {
    if i < |s| && IsPySpace(s[i]) then 1 + SpaceRun(s, i + 1) else 0
  }

  /** The literal occurs at i, ignoring case. */
  predicate LiteralAt(s: string, literal: string, i: nat)
  {
    i + |literal| <= |s| && EqualsIgnoreCase(s[i..i + |literal|], literal)
  }

  /** Group 1 of a match of the pattern that starts exactly at i, if there is one.
      Backtracking never helps: the character after a maximal \s+ or \w+ run cannot
      continue it, and every literal that follows starts with a character that ends
      the run before it. */
  function MatchAt(s: string, p: Pattern, i: nat): (r: Option<string>)
    requires i <= |s|
    ensures r.Some? ==> |r.value| > 0 && forall k :: 0 <= k < |r.value| ==> IsWordChar(r.value[k])
  {
    match p
    case KeywordThenWord(keyword) =>
      if !LiteralAt(s, keyword, i) then None
      else
        var j := i + |keyword|;
        var spaces := SpaceRun(s, j);
        var word := WordRun(s, j + spaces);
        if spaces > 0 && word > 0 then Some(s[j + spaces..j + spaces + word]) else None
    case WordThenPhrase(phrase) =>
      var word := WordRun(s, i);
      if word == 0 || i + word == |s| || s[i + word] != ',' then None
      else
        var j := i + word + 1;
        var spaces := SpaceRun(s, j);
        if spaces > 0 && LiteralAt(s, phrase, j + spaces) then Some(s[i..i + word]) else None
  }

  /** The first present element, scanning from the left. */
  function FirstSome<T>(xs: seq<Option<T>>): (r: Option<T>)
    ensures r.None? <==> forall j :: 0 <= j < |xs| ==> xs[j].None?
    ensures r.Some? ==> exists j :: 0 <= j < |xs| && xs[j] == r && forall k :: 0 <= k < j ==> xs[k].None?
    decreases |xs|
  {
    if |xs| == 0 then None
    else if xs[0].Some? then xs[0]
    else
      var rest := FirstSome(xs[1..]);
      assert forall j :: 1 <= j < |xs| ==> xs[j] == xs[1..][j - 1];
      rest
  }

  /** What the pattern matches at each position of s, from 0 to |s|. */
  function MatchesAt(s: string, p: Pattern): (ms: seq<Option<string>>)
    ensures |ms| == |s| + 1
    ensures forall j :: 0 <= j <= |s| ==> ms[j] == MatchAt(s, p, j)
  {
    seq(|s| + 1, j requires 0 <= j <= |s| => MatchAt(s, p, j))
  }

  /** re.search: the match that starts leftmost wins. */
  function Search(s: string, p: Pattern): (r: Option<string>)
    ensures r.None? <==> forall j :: 0 <= j <= |s| ==> MatchAt(s, p, j).None?
    ensures r.Some? ==> exists j :: 0 <= j <= |s| && r == MatchAt(s, p, j)
                                    && forall k :: 0 <= k < j ==> MatchAt(s, p, k).None?
  {
    var ms := MatchesAt(s, p);
    var r := FirstSome(ms);
    assert forall j :: 0 <= j <= |s| ==> ms[j] == MatchAt(s, p, j);
    r
  }

  /** The result of each pattern in turn. */
  function SearchEach(text: string, patterns: seq<Pattern>): (rs: seq<Option<string>>)
    ensures |rs| == |patterns|
    ensures forall k :: 0 <= k < |patterns| ==> rs[k] == Search(text, patterns[k])
  {
    seq(|patterns|, k requires 0 <= k < |patterns| => Search(text, patterns[k]))
  }

  /** The loop of _extract_addressee_patterns: the first pattern in the list that
      matches anywhere decides. */
  function FirstMatch(text: string, patterns: seq<Pattern>): Option<string>
  {
    FirstSome(SearchEach(text, patterns))
  }

  /** _extract_addressee_patterns. An extracted addressee is a non-empty run of
      word characters. */
  function ExtractAddresseePatterns(text: string): (r: Option<string>)
    ensures r.Some? ==> |r.value| > 0 && forall k :: 0 <= k < |r.value| ==> IsWordChar(r.value[k])
  {
    FirstMatch(text, Patterns)
  }

  /** Nothing is extracted exactly when no pattern matches; otherwise the result is
      what the earliest matching pattern finds, even when a later pattern would match
      further left. With Search's contract this is the leftmost match of that pattern. */
  lemma FirstPatternWins(text: string, patterns: seq<Pattern>)
    ensures FirstMatch(text, patterns).None? <==> forall k :: 0 <= k < |patterns| ==> Search(text, patterns[k]).None?
    ensures FirstMatch(text, patterns).Some? ==>
              exists k :: 0 <= k < |patterns| && FirstMatch(text, patterns) == Search(text, patterns[k])
                          && forall k' :: 0 <= k' < k ==> Search(text, patterns[k']).None?
  {
    var rs := SearchEach(text, patterns);
    if FirstSome(rs).Some? {
      var k :| 0 <= k < |rs| && rs[k] == FirstSome(rs) && forall k' :: 0 <= k' < k ==> rs[k'].None?;
      assert Search(text, patterns[k]) == FirstMatch(text, patterns);
    }
  }

  /** The keywords are not anchored at word boundaries: "They went" contains
      "hey" followed by a space and a word, so "went" is extracted. */
  lemma EmbeddedKeyword()
    ensures ExtractAddresseePatterns("They went") == Some("went")
  {
    var s := "They went";
    var hey := KeywordThenWord("Hey");
    assert !LiteralAt(s, "Hey", 0) by {
      assert ToLower(s[0..3])[0] == 't';
    }
    assert LiteralAt(s, "Hey", 1) by {
      assert s[1..4] == "hey";
      assert ToLower("hey") == ToLower("Hey");
    }
    assert SpaceRun(s, 4) == 1 by {
      assert SpaceRun(s, 5) == 0;
    }
    assert WordRun(s, 5) == 4 by {
      assert WordRun(s, 9) == 0;
      assert WordRun(s, 8) == 1;
      assert WordRun(s, 7) == 2;
      assert WordRun(s, 6) == 3;
    }
    assert s[5..9] == "went";
    assert MatchAt(s, hey, 1) == Some("went");
    assert MatchAt(s, hey, 0).None?;
    assert Search(s, hey) == Some("went");
    assert Patterns[0] == hey;
  }

  // ---------------------------------------------------------------------------
  // spaCy's output and the entity list
  // ---------------------------------------------------------------------------

  /** A token with its coarse part of speech (token.pos_). */
  datatype Token = Token(text: string, pos: string)

  /** A named entity with its label (ent.label_). */
  datatype Span = Span(text: string, category: string)

  /** What the spaCy pipeline produces for one text. */
  datatype Doc = Doc(tokens: seq<Token>, ents: seq<Span>, nounChunks: seq<string>)

  /** One element of extract_entities' result: {"text": ..., "type": ...}. */
  datatype EntityRecord = EntityRecord(text: string, kind: string)

  /** The list comprehension of extract_entities, entity by entity. */
  function Records(ents: seq<Span>): (r: seq<EntityRecord>)
    ensures |r| == |ents|
    ensures forall i :: 0 <= i < |ents| ==> r[i].text == ents[i].text && r[i].kind == ents[i].category
    decreases |ents|
  {
    if |ents| == 0 then [] else [EntityRecord(ents[0].text, ents[0].category)] + Records(ents[1..])
  }

  /** extract_entities: one record per entity, in entity order. */
  function ExtractEntities(doc: Doc): (r: seq<EntityRecord>)
    ensures |r| == |doc.ents|
    ensures forall i :: 0 <= i < |r| ==> r[i] == EntityRecord(doc.ents[i].text, doc.ents[i].category)
  {
    Records(doc.ents)
  }

  /** [entity["text"] for entity in entities if entity["type"] == "PERSON"]. */
  function PersonTexts(records: seq<EntityRecord>): (r: seq<string>)
    ensures |r| == 0 <==> forall i :: 0 <= i < |records| ==> records[i].kind != "PERSON"
    ensures |r| > 0 ==> exists i :: 0 <= i < |records| && records[i].kind == "PERSON" && r[0] == records[i].text
                                    && forall j :: 0 <= j < i ==> records[j].kind != "PERSON"
    ensures |r| <= |records|
    decreases |records|
  {
    if |records| == 0 then []
    else
      var rest := PersonTexts(records[1..]);
      assert forall i :: 1 <= i < |records| ==> records[i] == records[1..][i - 1];
      if records[0].kind == "PERSON" then [records[0].text] + rest else rest
  }

  // ---------------------------------------------------------------------------
  // Potential names
  // ---------------------------------------------------------------------------

  /** Length of the run of non-whitespace characters starting at i. */
  function NonSpaceRun(s: string, i: nat): (n: nat)
    requires i <= |s|
    ensures i + n <= |s|
    ensures forall k :: i <= k < i + n ==> !IsPySpace(s[k])
    ensures i + n < |s| ==> IsPySpace(s[i + n])
    decreases |s| - i
  {
    if i < |s| && !IsPySpace(s[i]) then 1 + NonSpaceRun(s, i + 1) else 0
  }

  /** The number of maximal runs of non-whitespace in s: positions holding a
      non-whitespace character whose predecessor is whitespace (afterSpace tells
      whether the character before s is whitespace or absent). */
  function RunStarts(s: string, afterSpace: bool): nat
    decreases |s|
  {
    if |s| == 0 then 0
    else (if afterSpace && !IsPySpace(s[0]) then 1 else 0) + RunStarts(s[1..], IsPySpace(s[0]))
  }

  /** str.split() with no separator: the maximal runs of non-whitespace, one word per
      run, each non-empty and free of whitespace. */
  function Words(s: string): (ws: seq<string>)
    ensures |ws| == RunStarts(s, true)
    ensures forall k :: 0 <= k < |ws| ==> |ws[k]| > 0 && forall c :: 0 <= c < |ws[k]| ==> !IsPySpace(ws[k][c])
    decreases |s|
  {
    if |s| == 0 then []
    else if IsPySpace(s[0]) then Words(s[1..])
    else
      var n := NonSpaceRun(s, 0);
      RunStartsSkipRun(s, n);
      [s[..n]] + Words(s[n..])
  }

  /** Inside a run no new run starts, and a run ends at whitespace or at the end. */
  lemma {:induction false} RunStartsSkipRun(s: string, n: nat)
    requires 0 < n <= |s|
    requires forall k :: 0 <= k < n ==> !IsPySpace(s[k])
    requires n == |s| || IsPySpace(s[n])
    ensures RunStarts(s, true) == 1 + RunStarts(s[n..], true)
    decreases n
  {
    assert RunStarts(s, true) == 1 + RunStarts(s[1..], false);
    RunStartsInRun(s[1..], n - 1);
  }

  lemma {:induction false} RunStartsInRun(s: string, n: nat)
    requires n <= |s|
    requires forall k :: 0 <= k < n ==> !IsPySpace(s[k])
    requires n == |s| || IsPySpace(s[n])
    ensures RunStarts(s, false) == RunStarts(s[n..], true)
    decreases n
  {
    if n > 0 {
      assert forall k :: 0 <= k < n - 1 ==> s[1..][k] == s[k + 1];
      RunStartsInRun(s[1..], n - 1);
      assert s[1..][n - 1..] == s[n..];
    } else if |s| > 0 {
      assert s[0..] == s;
    }
  }

  /** A string has no words exactly when it is all whitespace. */
  lemma {:induction false} NoWordsIffBlank(s: string)
    ensures |Words(s)| == 0 <==> forall i :: 0 <= i < |s| ==> IsPySpace(s[i])
    decreases |s|
  {
    if |s| > 0 && IsPySpace(s[0]) {
      NoWordsIffBlank(s[1..]);
      assert forall i :: 1 <= i < |s| ==> s[i] == s[1..][i - 1];
    }
  }

  predicate IsProperName(t: Token)
  {
    t.pos == "PROPN" && |t.text| > 1
  }

  predicate IsShortChunk(chunk: string)
  {
    1 <= |Words(chunk)| <= 2
  }

  /** The first loop of _extract_potential_names: proper nouns longer than one
      character, in token order, duplicates kept. */
  function ProperNouns(tokens: seq<Token>): seq<string>
    decreases |tokens|
  {
    if |tokens| == 0 then []
    else
      var prev := ProperNouns(tokens[..|tokens| - 1]);
      if IsProperName(tokens[|tokens| - 1]) then prev + [tokens[|tokens| - 1].text] else prev
  }

  /** The second loop: each short noun chunk not yet listed is appended. */
  function AddChunks(names: seq<string>, chunks: seq<string>): seq<string>
    decreases |chunks|
  {
    if |chunks| == 0 then names
    else
      var prev := AddChunks(names, chunks[..|chunks| - 1]);
      var chunk := chunks[|chunks| - 1];
      if IsShortChunk(chunk) && chunk !in prev then prev + [chunk] else prev
  }

  /** The list _extract_potential_names builds. */
  function PotentialNames(doc: Doc): seq<string>
  {
    AddChunks(ProperNouns(doc.tokens), doc.nounChunks)
  }

  /** The proper nouns are exactly the qualifying tokens' texts, in order: every
      element comes from a qualifying token, and every qualifying token is listed. */
  lemma {:induction false} ProperNounsProperties(tokens: seq<Token>)
    ensures |ProperNouns(tokens)| <= |tokens|
    ensures forall x :: x in ProperNouns(tokens) ==> exists i :: 0 <= i < |tokens| && IsProperName(tokens[i]) && tokens[i].text == x
    ensures forall i :: 0 <= i < |tokens| && IsProperName(tokens[i]) ==> tokens[i].text in ProperNouns(tokens)
    decreases |tokens|
  {
    if |tokens| > 0 {
      var init := tokens[..|tokens| - 1];
      ProperNounsProperties(init);
      assert forall i :: 0 <= i < |init| ==> init[i] == tokens[i];
    }
  }

  /** The chunk loop keeps the list it has built so far as a prefix. */
  lemma {:induction false} AddChunksPrefix(names: seq<string>, chunks: seq<string>, n: nat)
    requires n <= |chunks|
    ensures var r := AddChunks(names, chunks);
            var prev := AddChunks(names, chunks[..n]);
            |prev| <= |r| && r[..|prev|] == prev
    decreases |chunks|
  {
    if n < |chunks| {
      var init := chunks[..|chunks| - 1];
      AddChunksPrefix(names, init, n);
      assert init[..n] == chunks[..n];
    } else {
      assert chunks[..n] == chunks;
    }
  }

  /** Every element the chunk loop appends is a short noun chunk that is not listed
      anywhere before it. */
  lemma {:induction false} AddChunksAdds(names: seq<string>, chunks: seq<string>)
    ensures var r := AddChunks(names, chunks);
            |names| <= |r|
            && forall i :: |names| <= i < |r| ==> r[i] in chunks && IsShortChunk(r[i]) && r[i] !in r[..i]
    decreases |chunks|
  {
    if |chunks| > 0 {
      var init := chunks[..|chunks| - 1];
      var chunk := chunks[|chunks| - 1];
      AddChunksAdds(names, init);
      var prev := AddChunks(names, init);
      var r := AddChunks(names, chunks);
      assert forall c :: c in init ==> c in chunks;
      if r != prev {
        assert r == prev + [chunk];
        forall i | |names| <= i < |r|
          ensures r[i] in chunks && IsShortChunk(r[i]) && r[i] !in r[..i]
        {
          if i < |prev| {
            assert r[..i] == prev[..i];
          }
        }
      }
    }
  }

  /** Every short noun chunk is listed once the chunk loop is done. */
  lemma {:induction false} AddChunksCovers(names: seq<string>, chunks: seq<string>)
    ensures forall c :: c in chunks && IsShortChunk(c) ==> c in AddChunks(names, chunks)
    decreases |chunks|
  {
    if |chunks| > 0 {
      var init := chunks[..|chunks| - 1];
      AddChunksCovers(names, init);
      AddChunksPrefix(names, chunks, |chunks| - 1);
      var prev := AddChunks(names, init);
      var r := AddChunks(names, chunks);
      assert forall c :: c in prev ==> c in r;
      assert chunks == init + [chunks[|chunks| - 1]];
    }
  }

  /** The names the chunk loop starts from are kept, in order, at the front. */
  lemma AddChunksKeepsNames(names: seq<string>, chunks: seq<string>)
    ensures var r := AddChunks(names, chunks);
            |names| <= |r| && r[..|names|] == names
  {
    AddChunksPrefix(names, chunks, 0);
  }

  /** _extract_potential_names, with its two loops. */
  method ExtractPotentialNames(doc: Doc) returns (potentialNames: seq<string>)
    ensures potentialNames == PotentialNames(doc)
  {
    potentialNames := [];
    for t := 0 to |doc.tokens|
      invariant potentialNames == ProperNouns(doc.tokens[..t])
    {
      assert doc.tokens[..t + 1][..t] == doc.tokens[..t];
      var token := doc.tokens[t];
      if token.pos == "PROPN" && |token.text| > 1 {
        potentialNames := potentialNames + [token.text];
      }
    }
    assert doc.tokens[..|doc.tokens|] == doc.tokens;
    var properNouns := potentialNames;
    for c := 0 to |doc.nounChunks|
      invariant potentialNames == AddChunks(properNouns, doc.nounChunks[..c])
    {
      assert doc.nounChunks[..c + 1][..c] == doc.nounChunks[..c];
      var chunk := doc.nounChunks[c];
      if 1 <= |Words(chunk)| <= 2 && chunk !in potentialNames {
        potentialNames := potentialNames + [chunk];
      }
    }
    assert doc.nounChunks[..|doc.nounChunks|] == doc.nounChunks;
  }

  // ---------------------------------------------------------------------------
  // The cascade
  // ---------------------------------------------------------------------------

  /** The first PERSON entity's text, in entity order. */
  function FirstPerson(doc: Doc): (r: Option<string>)
    ensures r.None? <==> forall i :: 0 <= i < |doc.ents| ==> doc.ents[i].category != "PERSON"
    ensures r.Some? ==> exists i :: 0 <= i < |doc.ents| && doc.ents[i].category == "PERSON" && r == Some(doc.ents[i].text)
                                    && forall j :: 0 <= j < i ==> doc.ents[j].category != "PERSON"
  {
    var persons := PersonTexts(ExtractEntities(doc));
    if |persons| > 0 then Some(persons[0]) else None
  }

  /** The first potential name: the first qualifying proper noun, else the first
      noun chunk of one or two words, else none. */
  function FirstPotentialName(doc: Doc): (r: Option<string>)
    ensures r.None? <==> (forall i :: 0 <= i < |doc.tokens| ==> !IsProperName(doc.tokens[i]))
                         && (forall c :: 0 <= c < |doc.nounChunks| ==> !IsShortChunk(doc.nounChunks[c]))
    ensures forall i :: (0 <= i < |doc.tokens| && IsProperName(doc.tokens[i])
                         && forall j :: 0 <= j < i ==> !IsProperName(doc.tokens[j])) ==> r == Some(doc.tokens[i].text)
    ensures (forall i :: 0 <= i < |doc.tokens| ==> !IsProperName(doc.tokens[i])) ==>
              forall c :: (0 <= c < |doc.nounChunks| && IsShortChunk(doc.nounChunks[c])
                           && forall l :: 0 <= l < c ==> !IsShortChunk(doc.nounChunks[l])) ==> r == Some(doc.nounChunks[c])
  {
    var names := PotentialNames(doc);
    PotentialNamesEmpty(doc);
    assert forall i :: (0 <= i < |doc.tokens| && IsProperName(doc.tokens[i])
                        && forall j :: 0 <= j < i ==> !IsProperName(doc.tokens[j])) ==> |names| > 0 && names[0] == doc.tokens[i].text
      by {
        forall i | 0 <= i < |doc.tokens| && IsProperName(doc.tokens[i]) && forall j :: 0 <= j < i ==> !IsProperName(doc.tokens[j])
          ensures |names| > 0 && names[0] == doc.tokens[i].text
        {
          PotentialNamesHeadProper(doc, i);
        }
      }
    assert (forall i :: 0 <= i < |doc.tokens| ==> !IsProperName(doc.tokens[i])) ==>
             forall c :: (0 <= c < |doc.nounChunks| && IsShortChunk(doc.nounChunks[c])
                          && forall l :: 0 <= l < c ==> !IsShortChunk(doc.nounChunks[l])) ==> |names| > 0 && names[0] == doc.nounChunks[c]
      by {
        if forall i :: 0 <= i < |doc.tokens| ==> !IsProperName(doc.tokens[i]) {
          forall c | 0 <= c < |doc.nounChunks| && IsShortChunk(doc.nounChunks[c]) && forall l :: 0 <= l < c ==> !IsShortChunk(doc.nounChunks[l])
            ensures |names| > 0 && names[0] == doc.nounChunks[c]
          {
            PotentialNamesHeadChunk(doc, c);
          }
        }
      }
    if |names| > 0 then Some(names[0]) else None
  }

  /** The potential-name list is empty exactly when no token qualifies and no noun
      chunk has one or two words. */
  lemma PotentialNamesEmpty(doc: Doc)
    ensures |PotentialNames(doc)| == 0 <==>
              (forall i :: 0 <= i < |doc.tokens| ==> !IsProperName(doc.tokens[i]))
              && (forall c :: 0 <= c < |doc.nounChunks| ==> !IsShortChunk(doc.nounChunks[c]))
  {
    var names := ProperNouns(doc.tokens);
    ProperNounsProperties(doc.tokens);
    AddChunksKeepsNames(names, doc.nounChunks);
    AddChunksCovers(names, doc.nounChunks);
    if (forall i :: 0 <= i < |doc.tokens| ==> !IsProperName(doc.tokens[i]))
       && (forall c :: 0 <= c < |doc.nounChunks| ==> !IsShortChunk(doc.nounChunks[c])) {
      ProperNounsNone(doc.tokens);
      AddChunksNone(names, doc.nounChunks);
    }
  }

  /** The first qualifying token's text heads the potential-name list. */
  lemma PotentialNamesHeadProper(doc: Doc, i: nat)
    requires i < |doc.tokens| && IsProperName(doc.tokens[i])
    requires forall j :: 0 <= j < i ==> !IsProperName(doc.tokens[j])
    ensures |PotentialNames(doc)| > 0 && PotentialNames(doc)[0] == doc.tokens[i].text
  {
    var names := ProperNouns(doc.tokens);
    FirstProperNoun(doc.tokens, i);
    AddChunksKeepsNames(names, doc.nounChunks);
    assert PotentialNames(doc)[..|names|][0] == PotentialNames(doc)[0];
  }

  /** Without qualifying tokens, the first short noun chunk heads the list. */
  lemma PotentialNamesHeadChunk(doc: Doc, c: nat)
    requires forall i :: 0 <= i < |doc.tokens| ==> !IsProperName(doc.tokens[i])
    requires c < |doc.nounChunks| && IsShortChunk(doc.nounChunks[c])
    requires forall l :: 0 <= l < c ==> !IsShortChunk(doc.nounChunks[l])
    ensures |PotentialNames(doc)| > 0 && PotentialNames(doc)[0] == doc.nounChunks[c]
  {
    ProperNounsNone(doc.tokens);
    AddChunksFirst(doc.nounChunks, c);
  }

  /** The list of a concatenation of token sequences is the concatenation of their
      lists: with ProperNounsSingle this fixes ProperNouns as the texts of the
      qualifying tokens in token order, duplicates kept. */
  lemma {:induction false} ProperNounsAppend(a: seq<Token>, b: seq<Token>)
    ensures ProperNouns(a + b) == ProperNouns(a) + ProperNouns(b)
    decreases |b|
  {
    if b == [] {
      assert a + b == a;
    } else {
      var b' := b[..|b| - 1];
      assert (a + b)[..|a + b| - 1] == a + b';
      assert (a + b)[|a + b| - 1] == b[|b| - 1];
      ProperNounsAppend(a, b');
    }
  }

  /** One token contributes its text exactly when it is a proper noun longer than one
      character. */
  lemma ProperNounsSingle(t: Token)
    ensures ProperNouns([t]) == if IsProperName(t) then [t.text] else []
  {
    assert [t][..0] == [];
  }

  lemma {:induction false} ProperNounsNone(tokens: seq<Token>)
    requires forall i :: 0 <= i < |tokens| ==> !IsProperName(tokens[i])
    ensures ProperNouns(tokens) == []
    decreases |tokens|
  {
    if |tokens| > 0 {
      ProperNounsNone(tokens[..|tokens| - 1]);
    }
  }

  /** The first qualifying token's text heads the proper-noun list. */
  lemma FirstProperNoun(tokens: seq<Token>, i: nat)
    requires i < |tokens| && IsProperName(tokens[i])
    requires forall j :: 0 <= j < i ==> !IsProperName(tokens[j])
    ensures |ProperNouns(tokens)| > 0 && ProperNouns(tokens)[0] == tokens[i].text
  {
    assert tokens == tokens[..i] + ([tokens[i]] + tokens[i + 1..]);
    ProperNounsAppend(tokens[..i], [tokens[i]] + tokens[i + 1..]);
    ProperNounsAppend([tokens[i]], tokens[i + 1..]);
    ProperNounsNone(tokens[..i]);
    ProperNounsSingle(tokens[i]);
  }

  /** Without short chunks the chunk loop adds nothing. */
  lemma {:induction false} AddChunksNone(names: seq<string>, chunks: seq<string>)
    requires forall c :: 0 <= c < |chunks| ==> !IsShortChunk(chunks[c])
    ensures AddChunks(names, chunks) == names
    decreases |chunks|
  {
    if |chunks| > 0 {
      AddChunksNone(names, chunks[..|chunks| - 1]);
    }
  }

  /** Starting from no names, the first short chunk heads the list. */
  lemma AddChunksFirst(chunks: seq<string>, c: nat)
    requires c < |chunks| && IsShortChunk(chunks[c])
    requires forall l :: 0 <= l < c ==> !IsShortChunk(chunks[l])
    ensures |AddChunks([], chunks)| > 0 && AddChunks([], chunks)[0] == chunks[c]
  {
    AddChunksNone([], chunks[..c]);
    assert chunks[..c + 1][..c] == chunks[..c];
    assert AddChunks([], chunks[..c + 1]) == [chunks[c]];
    AddChunksPrefix([], chunks, c + 1);
  }

  /** extract_addressee: a pattern match, else the first PERSON entity, else the
      first potential name, else None. Both spaCy calls see the same Doc. */
  function ExtractAddressee(text: string, doc: Doc): (r: Option<string>)
    ensures ExtractAddresseePatterns(text).Some? ==> r == ExtractAddresseePatterns(text)
    ensures ExtractAddresseePatterns(text).None? && FirstPerson(doc).Some? ==> r == FirstPerson(doc)
    ensures ExtractAddresseePatterns(text).None? && FirstPerson(doc).None? ==> r == FirstPotentialName(doc)
  {
    var fromPatterns := ExtractAddresseePatterns(text);
    if fromPatterns.Some? && fromPatterns.value != "" then fromPatterns
    else if FirstPerson(doc).Some? then FirstPerson(doc)
    else FirstPotentialName(doc)
  }
}
