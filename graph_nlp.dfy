/** The text pipeline behind the task-similarity graph (`NLPUtils` in
    frontend/src/utils/graphUtils.js): keyword extraction, the Jaccard
    similarity of two titles, and detection of topics shared by several titles. */
module NlpUtils {
  import opened Common

  /** JavaScript's `\w`: ASCII letters, digits and the underscore. */
  predicate IsWordChar(c: char)
  {
    'a' <= c <= 'z' || 'A' <= c <= 'Z' || '0' <= c <= '9' || c == '_'
  }

  /** JavaScript's `\d`. */
  predicate IsDigit(c: char) { '0' <= c <= '9' }

  /** A character that can survive lowercasing, stripping and the digit test. */
  predicate IsKeywordChar(c: char) { 'a' <= c <= 'z' || c == '_' }

  /** The 24 stop words. */
  const StopWords: set<string> := {
    "a", "an", "the", "and", "or", "but", "in", "on", "at", "to", "for", "of", "with", "by",
    "study", "learn", "practice", "review", "read", "write", "create", "build", "make", "do"
  }

  predicate HasDigit(w: string)
  {
    exists i :: 0 <= i < |w| && IsDigit(w[i])
  }

  /** The filter applied to every token. */
  predicate IsKeyword(w: string)
  {
    |w| > 2 && w !in StopWords && !HasDigit(w)
  }

  // ---------------------------------------------------------------------
  // Normalisation: `text.toLowerCase().replace(/[^\w\s]/g, '')`

  /** `replace(/[^\w\s]/g, '')`: drops every character that is neither a word
      character nor whitespace. */
  function StripNonWord(s: string): (r: string)
  {
    if s == [] then []
    else (if IsWordChar(s[0]) || IsJsSpace(s[0]) then [s[0]] else []) + StripNonWord(s[1..])
  }

  function Normalize(text: string): string
  {
    StripNonWord(Lower(text))
  }

  /** Every character of a normalised text is a lowercase word character or
      whitespace: accented letters and punctuation are gone. */
  lemma {:induction false} NormalizeChars(s: string)
    requires forall i :: 0 <= i < |s| ==> !IsAsciiUpper(s[i])
    ensures forall i :: 0 <= i < |StripNonWord(s)| ==>
      var c := StripNonWord(s)[i]; (IsWordChar(c) && !IsAsciiUpper(c)) || IsJsSpace(c)
  {
    if s != [] {
      NormalizeChars(s[1..]);
    }
  }

  // ---------------------------------------------------------------------
  // Tokenising: `split(/\s+/)`

  /** Length of the leading run of non-whitespace characters. */
  function TokenLength(s: string): (n: nat)
    ensures n <= |s|
    ensures forall i :: 0 <= i < n ==> !IsJsSpace(s[i])
    ensures n < |s| ==> IsJsSpace(s[n])
  {
    if s == [] || IsJsSpace(s[0]) then 0 else 1 + TokenLength(s[1..])
  }

  /** The maximal whitespace-free runs of `s`, in order. `split(/\s+/)` also
      yields an empty string before leading and after trailing whitespace;
      those are left out here, as the length filter removes them anyway. */
  function Words(s: string): seq<string>
    decreases |s|
  {
    if s == [] then []
    else if IsJsSpace(s[0]) then Words(s[1..])
    else
      var n := TokenLength(s);
      assert n > 0;
      [s[..n]] + Words(s[n..])
  }

  /** `s` with its whitespace removed. */
  function NonSpace(s: string): string
  {
    if s == [] then [] else (if IsJsSpace(s[0]) then [] else [s[0]]) + NonSpace(s[1..])
  }

  function Concat(ws: seq<string>): string
  {
    if ws == [] then [] else ws[0] + Concat(ws[1..])
  }

  lemma {:induction false} NonSpaceAppend(a: string, b: string)
    ensures NonSpace(a + b) == NonSpace(a) + NonSpace(b)
  {
    if a == [] {
      assert a + b == b;
    } else {
      assert (a + b)[1..] == a[1..] + b;
      NonSpaceAppend(a[1..], b);
    }
  }

  lemma {:induction false} NonSpaceOfToken(s: string)
    requires forall i :: 0 <= i < |s| ==> !IsJsSpace(s[i])
    ensures NonSpace(s) == s
  {
    if s != [] {
      NonSpaceOfToken(s[1..]);
    }
  }

  /** The words are non-empty and hold no whitespace. */
  lemma {:induction false} WordsAreTokens(s: string)
    ensures forall w :: w in Words(s) ==> w != [] && forall i :: 0 <= i < |w| ==> !IsJsSpace(w[i])
    decreases |s|
  {
    if s == [] {
    } else if IsJsSpace(s[0]) {
      WordsAreTokens(s[1..]);
    } else {
      var n := TokenLength(s);
      WordsAreTokens(s[n..]);
      assert Words(s) == [s[..n]] + Words(s[n..]);
    }
  }

  /** Put back together, the words give the non-whitespace characters of
      `s` in their original order. */
  lemma {:induction false} WordsConcat(s: string)
    ensures Concat(Words(s)) == NonSpace(s)
    decreases |s|
  {
    if s == [] {
    } else if IsJsSpace(s[0]) {
      WordsConcat(s[1..]);
    } else {
      var n := TokenLength(s);
      WordsConcat(s[n..]);
      assert s == s[..n] + s[n..];
      NonSpaceAppend(s[..n], s[n..]);
      NonSpaceOfToken(s[..n]);
      assert Words(s) == [s[..n]] + Words(s[n..]);
      assert Concat(Words(s)) == s[..n] + Concat(Words(s[n..]));
    }
  }

  /** Splitting loses only whitespace: the words are non-empty, hold no
      whitespace, and put back together they give the non-whitespace
      characters of `s` in their original order. */
  lemma WordsPartition(s: string)
    ensures forall w :: w in Words(s) ==> w != [] && forall i :: 0 <= i < |w| ==> !IsJsSpace(w[i])
    ensures Concat(Words(s)) == NonSpace(s)
  {
    WordsAreTokens(s);
    WordsConcat(s);
  }

  /** Every character of a word is a character of the split text. */
  lemma {:induction false} WordsChars(s: string, w: string, i: int)
    requires w in Words(s) && 0 <= i < |w|
    ensures w[i] in s
    decreases |s|
  {
    if IsJsSpace(s[0]) {
      WordsChars(s[1..], w, i);
    } else {
      var n := TokenLength(s);
      if w == s[..n] {
        assert w[i] == s[i];
      } else {
        WordsChars(s[n..], w, i);
      }
    }
  }

  // ---------------------------------------------------------------------
  // Keyword extraction

  /** `filter(word => word.length > 2 && !stopWords.has(word) && !/\d/.test(word))` */
  function KeepKeywords(ws: seq<string>): (r: seq<string>)
    ensures forall k {:trigger k in r} :: k in r ==> k in ws && IsKeyword(k)
    ensures forall c {:trigger multiset(r)[c]} :: multiset(r)[c] == if IsKeyword(c) then multiset(ws)[c] else 0
  {
    if ws == [] then []
    else
      assert ws == [ws[0]] + ws[1..];
      (if IsKeyword(ws[0]) then [ws[0]] else []) + KeepKeywords(ws[1..])
  }

  /** The positions from `from` on of the words that pass the filter, in
      increasing order. */
  function KeywordPositions(ws: seq<string>, from: nat): (ps: seq<nat>)
    requires from <= |ws|
    ensures forall i :: 0 <= i < |ps| ==> from <= ps[i] < |ws| && IsKeyword(ws[ps[i]])
    ensures forall i, j :: 0 <= i < j < |ps| ==> ps[i] < ps[j]
    ensures forall p :: from <= p < |ws| && IsKeyword(ws[p]) ==> p in ps
    decreases |ws| - from
  {
    if from == |ws| then []
    else (if IsKeyword(ws[from]) then [from] else []) + KeywordPositions(ws, from + 1)
  }

  /** The filter keeps the words at the keyword positions, in order. */
  lemma {:induction false} KeepKeywordsPositions(ws: seq<string>, from: nat)
    requires from <= |ws|
    ensures var r, ps := KeepKeywords(ws[from..]), KeywordPositions(ws, from);
      |r| == |ps| && forall i :: 0 <= i < |ps| ==> r[i] == ws[ps[i]]
    decreases |ws| - from
  {
    if from < |ws| {
      var t := ws[from..];
      assert t[0] == ws[from] && t[1..] == ws[from + 1..];
      KeepKeywordsPositions(ws, from + 1);
      var r, ps := KeepKeywords(ws[from + 1..]), KeywordPositions(ws, from + 1);
      var head := if IsKeyword(ws[from]) then [ws[from]] else [];
      var at := if IsKeyword(ws[from]) then [from] else [];
      assert KeepKeywords(t) == head + r;
      assert KeywordPositions(ws, from) == at + ps;
      assert |head| == |at| && forall i :: 0 <= i < |at| ==> head[i] == ws[at[i]];
    }
  }

  /** `extractKeywords(text)`; an absent (undefined or null) text is modelled
      by the empty string, which the source handles by the same `!text` guard.
      The keywords are the words of the normalised text at the positions
      that pass the filter, in the order of those positions. */
  function ExtractKeywords(text: string): (r: seq<string>)
    ensures text == "" ==> r == []
    ensures forall k {:trigger k in r} :: k in r ==> IsKeyword(k) && k in Words(Normalize(text))
    ensures forall c {:trigger multiset(r)[c]} :: multiset(r)[c] ==
                        (if text == "" || !IsKeyword(c) then 0 else multiset(Words(Normalize(text)))[c])
    ensures var ws := Words(Normalize(text)); var ps := KeywordPositions(ws, 0);
      text != "" ==> |r| == |ps| && forall i :: 0 <= i < |ps| ==> r[i] == ws[ps[i]]
  {
    if text == "" then []
    else
      var ws := Words(Normalize(text));
      KeepKeywordsPositions(ws, 0);
      assert ws[0..] == ws;
      KeepKeywords(ws)
  }

  /** Every keyword is lowercase ASCII letters and underscores only, longer
      than two characters, not a stop word and free of digits. */
  lemma KeywordShape(text: string)
    ensures forall k :: k in ExtractKeywords(text) ==>
      IsKeyword(k) && forall i :: 0 <= i < |k| ==> IsKeywordChar(k[i])
  {
    var s := Normalize(text);
    NormalizeChars(Lower(text));
    forall k, i | k in ExtractKeywords(text) && 0 <= i < |k|
      ensures IsKeywordChar(k[i])
    {
      WordsChars(s, k, i);
      var j :| 0 <= j < |s| && s[j] == k[i];
      WordsPartition(s);
      assert !IsJsSpace(k[i]);
      assert !IsDigit(k[i]) by {
        assert !HasDigit(k);
      }
    }
  }

  // ---------------------------------------------------------------------
  // Similarity

  /** `new Set(extractKeywords(title))` */
  function KeywordSet(title: string): set<string>
  {
    set k | k in ExtractKeywords(title)
  }

  lemma {:induction false} SubsetSameSize(a: set<string>, b: set<string>)
    requires a <= b && |a| == |b|
    ensures a == b
  {
    if a != b {
      assert !(b <= a);
      var x :| x in b && x !in a;
      assert a <= b - {x};
      SubsetSize(a, b - {x});
      assert false;
    }
  }

  lemma {:induction false} SubsetSize(a: set<string>, b: set<string>)
    requires a <= b
    ensures |a| <= |b|
  {
    assert b == a + (b - a);
    assert a * (b - a) == {};
  }

  /** The Jaccard index of two keyword sets, 0 when either is empty. */
  function Jaccard(a: set<string>, b: set<string>): (r: real)
    ensures 0.0 <= r <= 1.0
    ensures r > 0.0 <==> a * b != {}
    ensures r == 1.0 <==> a == b && a != {}
  {
    if |a| == 0 || |b| == 0 then 0.0
    else
      SubsetSize(a * b, a + b);
      assert a <= a + b;
      SubsetSize(a, a + b);
      assert |a * b| == |a + b| ==> a == b by {
        if |a * b| == |a + b| {
          SubsetSameSize(a * b, a + b);
          assert a <= a * b && b <= a * b;
        }
      }
      assert a * b != {} <==> |a * b| > 0;
      (|a * b| as real) / (|a + b| as real)
  }

  /** `calculateSimilarity(title1, title2)`, as an exact rational. */
  function Similarity(title1: string, title2: string): (r: real)
    ensures 0.0 <= r <= 1.0
    ensures r == 1.0 <==> KeywordSet(title1) == KeywordSet(title2) && KeywordSet(title1) != {}
    ensures r > 0.0 <==> exists k :: k in ExtractKeywords(title1) && k in ExtractKeywords(title2)
  {
    var a := KeywordSet(title1);
    var b := KeywordSet(title2);
    assert a * b != {} <==> exists k :: k in ExtractKeywords(title1) && k in ExtractKeywords(title2) by {
      if a * b != {} {
        var k :| k in a * b;
        assert k in ExtractKeywords(title1) && k in ExtractKeywords(title2);
      }
    }
    Jaccard(a, b)
  }

  /** Similarity does not depend on the order of the two titles. */
  lemma SimilaritySymmetric(title1: string, title2: string)
    ensures Similarity(title1, title2) == Similarity(title2, title1)
  {
    var a, b := KeywordSet(title1), KeywordSet(title2);
    assert a * b == b * a && a + b == b + a;
  }

  /** A title is at similarity 1 from itself when it has a keyword, and at
      0 when it has none. */
  lemma SimilaritySelf(title: string)
    ensures Similarity(title, title) == if KeywordSet(title) == {} then 0.0 else 1.0
  {
  }

  // ---------------------------------------------------------------------
  // Topic detection: `findCommonTopics(tasks)`

  /** The keywords of every title, title after title: the order in which the
      two `forEach` loops visit them. */
  function AllKeywords(titles: seq<string>): seq<string>
  {
    if titles == [] then [] else AllKeywords(titles[..|titles| - 1]) + ExtractKeywords(titles[|titles| - 1])
  }

  /** One `[topic, count]` pair of `Object.entries(topicFrequency)`. */
  datatype Entry = Entry(key: string, count: int)

  /** `Object.entries(topicFrequency)` once every keyword occurrence in `ws`
      has been counted: the keys in the order they entered the object. Keywords
      are never integer-like, since they hold no digit, so no key is moved
      ahead of the others when the object is enumerated. */
  function Entries(ws: seq<string>): (es: seq<Entry>)
    ensures forall i :: 0 <= i < |es| ==> es[i].key in ws && es[i].count == multiset(ws)[es[i].key]
    ensures forall w :: w in ws ==> exists i :: 0 <= i < |es| && es[i].key == w
    ensures forall i, j :: 0 <= i < j < |es| ==> FirstIndex(ws, es[i].key) < FirstIndex(ws, es[j].key)
  {
    var d := FirstSeen(ws);
    var es := seq(|d|, i requires 0 <= i < |d| => Entry(d[i], multiset(ws)[d[i]]));
    assert forall i :: 0 <= i < |d| ==> es[i].key == d[i];
    assert forall w :: w in ws ==> w in d;
    es
  }

  /** `filter(([_, count]) => count >= 2)` */
  function Frequent(es: seq<Entry>): (r: seq<Entry>)
    ensures forall e :: multiset(r)[e] == if e.count >= 2 then multiset(es)[e] else 0
  {
    if es == [] then []
    else
      assert es == [es[0]] + es[1..];
      (if es[0].count >= 2 then [es[0]] else []) + Frequent(es[1..])
  }

  /** The entries with count `c`, in order. */
  function WithCount(s: seq<Entry>, c: int): seq<Entry>
  {
    if s == [] then [] else (if s[0].count == c then [s[0]] else []) + WithCount(s[1..], c)
  }

  lemma {:induction false} WithCountAppend(a: seq<Entry>, b: seq<Entry>, c: int)
    ensures WithCount(a + b, c) == WithCount(a, c) + WithCount(b, c)
  {
    if a == [] {
      assert a + b == b;
    } else {
      var h := if a[0].count == c then [a[0]] else [];
      assert (a + b)[0] == a[0] && (a + b)[1..] == a[1..] + b;
      assert WithCount(a + b, c) == h + WithCount(a[1..] + b, c);
      WithCountAppend(a[1..], b, c);
      assert WithCount(a, c) == h + WithCount(a[1..], c);
    }
  }

  lemma {:induction false} FrequentWithCount(es: seq<Entry>, c: int)
    requires c >= 2
    ensures WithCount(Frequent(es), c) == WithCount(es, c)
  {
    if es != [] {
      FrequentWithCount(es[1..], c);
      WithCountAppend(if es[0].count >= 2 then [es[0]] else [], Frequent(es[1..]), c);
    }
  }

  predicate NonIncreasing(s: seq<Entry>)
  {
    forall i, j :: 0 <= i < j < |s| ==> s[i].count >= s[j].count
  }

  /** Places `e` after every entry whose count is at least `e.count`. */
  function InsertByCount(e: Entry, s: seq<Entry>): (r: seq<Entry>)
    ensures multiset(r) == multiset(s) + multiset{e}
    ensures forall x :: x in r ==> x == e || x in s
  {
    if s == [] then [e]
    else if s[0].count < e.count then [e] + s
    else
      assert s == [s[0]] + s[1..];
      [s[0]] + InsertByCount(e, s[1..])
  }

  lemma {:induction false} InsertSorted(e: Entry, s: seq<Entry>)
    requires NonIncreasing(s)
    ensures NonIncreasing(InsertByCount(e, s))
  {
    if s == [] {
    } else if s[0].count < e.count {
      var r := [e] + s;
      forall i, j | 0 <= i < j < |r| ensures r[i].count >= r[j].count {
        assert r[j] == s[j - 1];
        if i > 0 {
          assert r[i] == s[i - 1];
        }
      }
    } else {
      var t := s[1..];
      assert NonIncreasing(t);
      InsertSorted(e, t);
      var q := InsertByCount(e, t);
      var r := [s[0]] + q;
      forall i, j | 0 <= i < j < |r| ensures r[i].count >= r[j].count {
        if i == 0 {
          assert r[j] == q[j - 1] && q[j - 1] in q;
          if q[j - 1] != e {
            var k :| 0 <= k < |t| && t[k] == q[j - 1];
            assert t[k] == s[k + 1];
          }
        } else {
          assert r[i] == q[i - 1] && r[j] == q[j - 1];
        }
      }
    }
  }

  lemma {:induction false} InsertWithCount(e: Entry, s: seq<Entry>, c: int)
    requires NonIncreasing(s)
    ensures WithCount(InsertByCount(e, s), c) == WithCount(s, c) + WithCount([e], c)
  {
    if s == [] {
      assert [e] == [] + [e];
    } else if s[0].count < e.count {
      WithCountAppend([e], s, c);
      if e.count == c {
        NoneWithCount(s, c);
      }
    } else {
      var t := s[1..];
      assert NonIncreasing(t);
      var q := InsertByCount(e, t);
      assert InsertByCount(e, s) == [s[0]] + q;
      calc {
        WithCount([s[0]] + q, c);
        { WithCountAppend([s[0]], q, c); }
        WithCount([s[0]], c) + WithCount(q, c);
        { InsertWithCount(e, t, c); }
        WithCount([s[0]], c) + (WithCount(t, c) + WithCount([e], c));
        (WithCount([s[0]], c) + WithCount(t, c)) + WithCount([e], c);
        { WithCountAppend([s[0]], t, c); assert s == [s[0]] + t; }
        WithCount(s, c) + WithCount([e], c);
      }
    }
  }

  lemma {:induction false} NoneWithCount(s: seq<Entry>, c: int)
    requires NonIncreasing(s) && s != [] && s[0].count < c
    ensures WithCount(s, c) == []
  {
    if |s| > 1 {
      assert NonIncreasing(s[1..]);
      NoneWithCount(s[1..], c);
    }
  }

  /** `sort((a, b) => b[1] - a[1])`: JavaScript's sort is stable, so entries
      are put in decreasing order of count and entries of equal count keep
      their relative order. */
  function SortByCount(es: seq<Entry>): seq<Entry>
  {
    if es == [] then [] else InsertByCount(es[|es| - 1], SortByCount(es[..|es| - 1]))
  }

  /** The sort is a stable sort: sorted by decreasing count, a permutation of
      its input, and for every count the entries with that count appear in
      their original order. */
  lemma {:induction false} SortByCountStable(es: seq<Entry>)
    ensures NonIncreasing(SortByCount(es))
    ensures multiset(SortByCount(es)) == multiset(es)
    ensures forall c :: WithCount(SortByCount(es), c) == WithCount(es, c)
  {
    if es != [] {
      var init, last := es[..|es| - 1], es[|es| - 1];
      assert es == init + [last];
      SortByCountStable(init);
      InsertSorted(last, SortByCount(init));
      forall c ensures WithCount(SortByCount(es), c) == WithCount(es, c) {
        InsertWithCount(last, SortByCount(init), c);
        WithCountAppend(init, [last], c);
      }
    }
  }

  /** `map(([topic]) => topic)` */
  function Keys(es: seq<Entry>): (r: seq<string>)
    ensures |r| == |es|
    ensures forall i :: 0 <= i < |es| ==> r[i] == es[i].key
  {
    seq(|es|, i requires 0 <= i < |es| => es[i].key)
  }

  /** The topics `findCommonTopics` returns for tasks with these titles. */
  function CommonTopics(titles: seq<string>): seq<string>
  {
    Keys(SortByCount(Frequent(Entries(AllKeywords(titles)))))
  }

  /** What sorting the frequent entries keeps: an entry is in the sorted
      list iff it is an entry of the frequency table with a count of at
      least 2, and every entry's count is the number of occurrences of its key. */
  lemma {:induction false} SortedEntries(ws: seq<string>)
    ensures var es := Entries(ws); var ss := SortByCount(Frequent(es));
      && (forall e :: e in ss <==> e in es && e.count >= 2)
      && (forall e :: e in es ==> e.count == multiset(ws)[e.key])
      && Distinct(ss)
  {
    var es := Entries(ws);
    var fs := Frequent(es);
    var ss := SortByCount(fs);
    SortByCountStable(fs);
    forall e ensures e in ss <==> e in es && e.count >= 2 {
      calc {
        e in ss;
        e in multiset(ss);
        e in multiset(fs);
        e in multiset(es) && e.count >= 2;
      }
    }
    forall e | e in es ensures e.count == multiset(ws)[e.key] {
      var i :| 0 <= i < |es| && es[i] == e;
    }
    DistinctMultiset(FirstSeen(ws));
    assert Distinct(es) by {
      forall i, j | 0 <= i < j < |es| ensures es[i] != es[j] {
        assert FirstSeen(ws)[i] != FirstSeen(ws)[j];
      }
    }
    DistinctMultiset(es);
    assert forall e :: multiset(fs)[e] <= 1;
    DistinctMultiset(ss);
  }

  /** A key survives the filter, the sort and the projection iff it occurs
      at least twice. */
  lemma {:induction false} FrequentKey(ws: seq<string>, t: string)
    ensures t in Keys(SortByCount(Frequent(Entries(ws)))) <==> multiset(ws)[t] >= 2
  {
    var es := Entries(ws);
    var ss := SortByCount(Frequent(es));
    var r := Keys(ss);
    SortedEntries(ws);
    if t in r {
      var i :| 0 <= i < |r| && r[i] == t;
      assert ss[i] in ss;
    }
    if multiset(ws)[t] >= 2 {
      assert t in FirstSeen(ws);
      var i :| 0 <= i < |FirstSeen(ws)| && FirstSeen(ws)[i] == t;
      assert es[i] in es;
      var k :| 0 <= k < |ss| && ss[k] == es[i];
      assert r[k] == t;
    }
  }

  /** The topics are exactly the keywords that occur at least twice over all
      titles (occurrences, so a word repeated within one title counts twice). */
  lemma CommonTopicsMembers(titles: seq<string>)
    ensures var ws := AllKeywords(titles);
      forall t :: t in CommonTopics(titles) <==> multiset(ws)[t] >= 2
  {
    forall t ensures t in CommonTopics(titles) <==> multiset(AllKeywords(titles))[t] >= 2 {
      FrequentKey(AllKeywords(titles), t);
    }
  }

  /** No topic is returned twice, topics come in non-increasing order of
      occurrences, and topics with the same count keep the order in which
      they were first seen. */
  lemma CommonTopicsOrder(titles: seq<string>)
    ensures var ws, r := AllKeywords(titles), CommonTopics(titles);
      && Distinct(r)
      && (forall i, j :: 0 <= i < j < |r| ==> multiset(ws)[r[i]] >= multiset(ws)[r[j]])
      && (forall c :: c >= 2 ==>
            WithCount(SortByCount(Frequent(Entries(ws))), c) == WithCount(Entries(ws), c))
  {
    var ws := AllKeywords(titles);
    var es := Entries(ws);
    var fs := Frequent(es);
    var ss := SortByCount(fs);
    var r := Keys(ss);
    SortedEntries(ws);
    SortByCountStable(fs);
    forall i, j | 0 <= i < j < |r| ensures r[i] != r[j] {
      assert ss[i] in ss && ss[j] in ss;
      assert ss[i] != ss[j];
    }
    forall i, j | 0 <= i < j < |r| ensures multiset(ws)[r[i]] >= multiset(ws)[r[j]] {
      assert ss[i] in ss && ss[j] in ss;
    }
    forall c | c >= 2 ensures WithCount(ss, c) == WithCount(es, c) {
      FrequentWithCount(es, c);
    }
  }

  lemma AllKeywordsStep(titles: seq<string>, i: int)
    requires 0 <= i < |titles|
    ensures AllKeywords(titles[..i + 1]) == AllKeywords(titles[..i]) + ExtractKeywords(titles[i])
  {
    assert titles[..i + 1][..i] == titles[..i];
  }

  /** The frequency object after counting the keyword occurrences `seen`:
      its keys in insertion order, and each key's count. */
  ghost predicate TableOf(seen: seq<string>, keys: seq<string>, frequency: map<string, int>)
  {
    && keys == FirstSeen(seen)
    && (forall k :: k in frequency <==> k in seen)
    && forall k :: k in frequency ==> frequency[k] == multiset(seen)[k]
  }

  /** Enumerating a frequency table that is up to date with `seen` gives
      the entries of `seen`. */
  lemma TableEntries(seen: seq<string>, keys: seq<string>, frequency: map<string, int>, entries: seq<Entry>)
    requires TableOf(seen, keys, frequency)
    requires |entries| == |keys|
    requires forall n :: 0 <= n < |keys| ==> keys[n] in frequency && entries[n] == Entry(keys[n], frequency[keys[n]])
    ensures entries == Entries(seen)
  {
  }

  /** The frequency object after one more occurrence of `keyword`. */
  function Counted(frequency: map<string, int>, keyword: string): map<string, int>
  {
    frequency[keyword := (if keyword in frequency then frequency[keyword] else 0) + 1]
  }

  /** Counting one more occurrence keeps the table up to date: a new key
      goes last, and the count of the keyword goes up by one. */
  lemma TableStep(seen: seq<string>, keys: seq<string>, frequency: map<string, int>, keyword: string)
    requires TableOf(seen, keys, frequency)
    ensures TableOf(seen + [keyword], if keyword in frequency then keys else keys + [keyword], Counted(frequency, keyword))
  {
    FirstSeenStep(seen, keyword);
    var seen' := seen + [keyword];
    assert forall k :: k in seen' <==> k in seen || k == keyword;
    assert multiset(seen') == multiset(seen) + multiset{keyword};
  }

  lemma PrefixStep(seen0: seq<string>, keywords: seq<string>, j: int)
    requires 0 <= j < |keywords|
    ensures seen0 + keywords[..j + 1] == seen0 + keywords[..j] + [keywords[j]]
  {
    assert keywords[..j + 1] == keywords[..j] + [keywords[j]];
  }

  /** The inner `keywords.forEach`: counts the keywords of one title into the
      frequency object. */
  method CountKeywords(keywords: seq<string>, keys0: seq<string>, frequency0: map<string, int>, ghost seen0: seq<string>)
    returns (keys: seq<string>, frequency: map<string, int>)
    requires TableOf(seen0, keys0, frequency0)
    ensures TableOf(seen0 + keywords, keys, frequency)
  {
    keys, frequency := keys0, frequency0;
    ghost var seen := seen0;
    assert seen0 + keywords[..0] == seen0;
    for j := 0 to |keywords|
      invariant seen == seen0 + keywords[..j]
      invariant TableOf(seen, keys, frequency)
    {
      var keyword := keywords[j];
      PrefixStep(seen0, keywords, j);
      TableStep(seen, keys, frequency, keyword);
      if keyword !in frequency {
        keys := keys + [keyword];
      }
      frequency := Counted(frequency, keyword);
      seen := seen + [keyword];
    }
    assert keywords[..|keywords|] == keywords;
  }

  /** The outer `tasks.forEach` of `findCommonTopics`: counts every keyword
      occurrence of every title in a frequency object whose keys remember
      their insertion order. */
  method CountAllKeywords(titles: seq<string>) returns (keys: seq<string>, frequency: map<string, int>)
    ensures TableOf(AllKeywords(titles), keys, frequency)
  {
    frequency := map[];
    keys := [];
    for i := 0 to |titles|
      invariant TableOf(AllKeywords(titles[..i]), keys, frequency)
    {
      var keywords := ExtractKeywords(titles[i]);
      AllKeywordsStep(titles, i);
      keys, frequency := CountKeywords(keywords, keys, frequency, AllKeywords(titles[..i]));
    }
    assert titles[..|titles|] == titles;
  }

  /** `findCommonTopics(tasks)`, over the tasks' titles, with the counts kept
      as numbers for every key: counts every keyword occurrence, then keeps,
      sorts and projects the entries. */
  method FindCommonTopics(titles: seq<string>) returns (topics: seq<string>)
    ensures topics == CommonTopics(titles)
  {
    var keys, frequency := CountAllKeywords(titles);
    var entries := seq(|keys|, n requires 0 <= n < |keys| => Entry(keys[n], frequency[keys[n]]));
    TableEntries(AllKeywords(titles), keys, frequency, entries);
    topics := Keys(SortByCount(Frequent(entries)));
  }

  // ---------------------------------------------------------------------
  // The frequency object as written

  /** The keywords that name a property every plain object `{}` inherits
      from `Object.prototype`: `constructor` (the `Object` function) and
      `__proto__` (the prototype itself). The other inherited names all hold
      an upper-case letter, which no keyword has. */
  predicate Inherited(key: string)
  {
    key == "constructor" || key == "__proto__"
  }

  /** The value `topicFrequency[key]` ends with in the code as written: a
      number, or, for `constructor`, a string. Its first read yields the
      inherited `Object` function, which is truthy, so `|| 0` keeps it and
      `+ 1` concatenates. */
  datatype Count = Number(n: int) | Concatenated

  /** The number of occurrences of every keyword of `ws`. */
  function Occurrences(ws: seq<string>): (m: map<string, int>)
    ensures forall k :: k in m <==> k in ws
    ensures forall k :: k in m ==> m[k] == multiset(ws)[k]
  {
    map k | k in ws :: multiset(ws)[k]
  }

  /** `Object.entries(topicFrequency)` as written, for the keys `keys` (in
      insertion order) counted in `counts`. For `__proto__` the first read
      yields `Object.prototype`, which `|| 0` keeps, so `+ 1` gives the string
      `[object Object]1`; the `__proto__` setter ignores a value that is neither
      an object nor null, so that key is never an own property. */
  function ObjectEntries(keys: seq<string>, counts: map<string, int>): (r: seq<(string, Count)>)
    requires forall k :: k in keys ==> k in counts
    ensures forall k, c :: (k, c) in r <==>
      k in keys && k != "__proto__" && c == (if k == "constructor" then Concatenated else Number(counts[k]))
  {
    if keys == [] then []
    else
      var k := keys[0];
      assert keys == [k] + keys[1..];
      (if k == "__proto__" then [] else [(k, if k == "constructor" then Concatenated else Number(counts[k]))])
        + ObjectEntries(keys[1..], counts)
  }

  /** `filter(([_, count]) => count >= 2)` as written: a concatenated string
      compares as `NaN`, so `count >= 2` is false for it. */
  function FrequentAsWritten(es: seq<(string, Count)>): (r: seq<Entry>)
    ensures forall e :: e in r <==> (e.key, Number(e.count)) in es && e.count >= 2
  {
    if es == [] then []
    else
      var e := es[0];
      assert es == [e] + es[1..];
      (if e.1.Number? && e.1.n >= 2 then [Entry(e.0, e.1.n)] else []) + FrequentAsWritten(es[1..])
  }

  /** `findCommonTopics(tasks)` as written, counting into a plain object. */
  function CommonTopicsAsWritten(titles: seq<string>): seq<string>
  {
    var ws := AllKeywords(titles);
    Keys(SortByCount(FrequentAsWritten(ObjectEntries(FirstSeen(ws), Occurrences(ws)))))
  }

  /** `findCommonTopics(tasks)` as written, over the tasks' titles: the same
      counting loops, then the entries a plain object yields. */
  method FindCommonTopicsAsWritten(titles: seq<string>) returns (topics: seq<string>)
    ensures topics == CommonTopicsAsWritten(titles)
  {
    var keys, frequency := CountAllKeywords(titles);
    assert frequency == Occurrences(AllKeywords(titles));
    topics := Keys(SortByCount(FrequentAsWritten(ObjectEntries(keys, frequency))));
  }

  /** The entries kept as written are the counted keys other than the two
      inherited ones, with counts of at least 2. */
  lemma FrequentEntriesAsWritten(ws: seq<string>, e: Entry)
    ensures e in FrequentAsWritten(ObjectEntries(FirstSeen(ws), Occurrences(ws))) <==>
      e.key in ws && !Inherited(e.key) && e.count == multiset(ws)[e.key] && e.count >= 2
  {
    var es := ObjectEntries(FirstSeen(ws), Occurrences(ws));
    assert e in FrequentAsWritten(es) <==> (e.key, Number(e.count)) in es && e.count >= 2;
    assert (e.key, Number(e.count)) in es <==>
      e.key in FirstSeen(ws) && e.key != "__proto__"
      && Number(e.count) == (if e.key == "constructor" then Concatenated else Number(multiset(ws)[e.key]));
  }

  lemma {:induction false} FrequentKeyAsWritten(ws: seq<string>, t: string)
    ensures t in Keys(SortByCount(FrequentAsWritten(ObjectEntries(FirstSeen(ws), Occurrences(ws)))))
            <==> multiset(ws)[t] >= 2 && !Inherited(t)
  {
    var fs := FrequentAsWritten(ObjectEntries(FirstSeen(ws), Occurrences(ws)));
    var ss := SortByCount(fs);
    assert multiset(ss) == multiset(fs) by {
      SortByCountStable(fs);
    }
    if t in Keys(ss) {
      var i :| 0 <= i < |ss| && Keys(ss)[i] == t;
      assert ss[i] in multiset(fs);
      FrequentEntriesAsWritten(ws, ss[i]);
    }
    if multiset(ws)[t] >= 2 && !Inherited(t) {
      var e := Entry(t, multiset(ws)[t]);
      FrequentEntriesAsWritten(ws, e);
      assert e in multiset(ss);
      var i :| 0 <= i < |ss| && ss[i] == e;
      assert Keys(ss)[i] == t;
    }
  }

  /** As written, the topics are the keywords occurring at least twice except
      `constructor` and `__proto__`, which are never topics however often
      they occur. */
  lemma CommonTopicsAsWrittenMembers(titles: seq<string>)
    ensures var ws := AllKeywords(titles);
      forall t :: t in CommonTopicsAsWritten(titles) <==> multiset(ws)[t] >= 2 && !Inherited(t)
  {
    forall t ensures t in CommonTopicsAsWritten(titles) <==> multiset(AllKeywords(titles))[t] >= 2 && !Inherited(t) {
      FrequentKeyAsWritten(AllKeywords(titles), t);
    }
  }

  lemma {:induction false} TokenLengthOfWord(s: string)
    requires forall i :: 0 <= i < |s| ==> !IsJsSpace(s[i])
    ensures TokenLength(s) == |s|
  {
    if s != [] {
      TokenLengthOfWord(s[1..]);
    }
  }

  lemma {:induction false} StripWordChars(s: string)
    requires forall i :: 0 <= i < |s| ==> IsWordChar(s[i]) || IsJsSpace(s[i])
    ensures StripNonWord(s) == s
  {
    if s != [] {
      StripWordChars(s[1..]);
      assert s == [s[0]] + s[1..];
    }
  }

  /** A lowercase word of lowercase letters is its own single keyword. */
  lemma SingleKeyword(w: string)
    requires IsKeyword(w) && forall i :: 0 <= i < |w| ==> 'a' <= w[i] <= 'z'
    ensures ExtractKeywords(w) == [w]
  {
    assert Lower(w) == w;
    StripWordChars(w);
    assert Normalize(w) == w;
    TokenLengthOfWord(w);
    assert w[..|w|] == w && w[|w|..] == [];
    assert Words(w) == [w];
    assert KeepKeywords([w]) == [w] by {
      assert [w][1..] == [];
    }
  }

  lemma AllKeywordsOfTwo(w: string)
    requires ExtractKeywords(w) == [w]
    ensures AllKeywords([w, w]) == [w, w]
  {
    var ts := [w, w];
    assert ts[..1] == [w] && ts[1] == w;
    OneTitleKeywords(w);
    assert AllKeywords(ts) == AllKeywords([w]) + ExtractKeywords(w);
  }

  /** A keyword that occurs at least twice but that an `Object` inherits is a
      common topic, yet the code as written never reports it. */
  lemma InheritedNeverReported(titles: seq<string>, w: string)
    requires multiset(AllKeywords(titles))[w] >= 2 && Inherited(w)
    ensures w in CommonTopics(titles) && w !in CommonTopicsAsWritten(titles)
  {
    CommonTopicsMembers(titles);
    CommonTopicsAsWrittenMembers(titles);
  }

  lemma NoMemberEmpty(s: seq<string>)
    requires forall t :: t !in s
    ensures s == []
  {
    forall t ensures multiset(s)[t] == 0 {
      assert t !in s;
      assert t in multiset(s) <==> t in s;
    }
    assert multiset(s) == multiset{};
  }

  lemma DistinctSingleton(s: seq<string>, w: string)
    requires Distinct(s) && w in s && forall t :: t in s ==> t == w
    ensures s == [w]
  {
    DistinctMultiset(s);
    forall t ensures multiset(s)[t] == multiset{w}[t] {
      assert t in multiset(s) <==> t in s;
    }
    assert multiset(s) == multiset{w};
    assert |s| == 1 && s[0] in s;
  }

  /** When the only keyword occurrences are two of one inherited name, the
      intended topics are that name alone and the topics as written are none. */
  lemma InheritedTopics(titles: seq<string>, w: string)
    requires AllKeywords(titles) == [w, w] && Inherited(w)
    ensures CommonTopicsAsWritten(titles) == []
    ensures CommonTopics(titles) == [w]
  {
    var ws := AllKeywords(titles);
    assert forall t :: multiset(ws)[t] == if t == w then 2 else 0;
    CommonTopicsAsWrittenMembers(titles);
    NoMemberEmpty(CommonTopicsAsWritten(titles));
    CommonTopicsMembers(titles);
    CommonTopicsOrder(titles);
    DistinctSingleton(CommonTopics(titles), w);
  }

  /** The keywords of two titles "constructor" are two `constructor`s. */
  lemma ConstructorKeywords()
    ensures AllKeywords(["constructor", "constructor"]) == ["constructor", "constructor"]
  {
    var w := "constructor";
    assert !HasDigit(w);
    SingleKeyword(w);
    AllKeywordsOfTwo(w);
  }

  /** Two tasks titled "constructor" share the keyword `constructor`, so it
      is a common topic, but the code as written never reports it. */
  lemma ConstructorNeverReported()
    ensures var titles := ["constructor", "constructor"];
      "constructor" in CommonTopics(titles) && "constructor" !in CommonTopicsAsWritten(titles)
  {
    var w := "constructor";
    ConstructorKeywords();
    assert multiset([w, w])[w] == 2;
    InheritedNeverReported([w, w], w);
  }

  // ---------------------------------------------------------------------
  // Counting tasks rather than occurrences

  /** A token followed by whitespace ends where the whitespace starts. */
  lemma {:induction false} TokenLengthBeforeSpace(a: string, b: string)
    requires forall i :: 0 <= i < |a| ==> !IsJsSpace(a[i])
    requires b != [] && IsJsSpace(b[0])
    ensures TokenLength(a + b) == |a|
  {
    if a != [] {
      assert (a + b)[1..] == a[1..] + b;
      TokenLengthBeforeSpace(a[1..], b);
    }
  }

  /** Text of lowercase letters and spaces is already normalised. */
  lemma NormalizeLowercase(s: string)
    requires forall i :: 0 <= i < |s| ==> 'a' <= s[i] <= 'z' || s[i] == ' '
    ensures Normalize(s) == s
  {
    assert forall i :: 0 <= i < |s| ==> Lower(s)[i] == s[i];
    assert Lower(s) == s;
    StripWordChars(s);
  }

  /** A word followed by whitespace is split off first. */
  lemma WordsAfterWord(a: string, b: string)
    requires a != [] && forall i :: 0 <= i < |a| ==> !IsJsSpace(a[i])
    requires b != [] && IsJsSpace(b[0])
    ensures Words(a + b) == [a] + Words(b)
  {
    var s := a + b;
    TokenLengthBeforeSpace(a, b);
    assert s[0] == a[0];
    assert s[..|a|] == a && s[|a|..] == b;
  }

  /** A word with no whitespace splits into itself. */
  lemma WordsOfWord(w: string)
    requires w != [] && forall i :: 0 <= i < |w| ==> !IsJsSpace(w[i])
    ensures Words(w) == [w]
  {
    TokenLengthOfWord(w);
    assert w[..|w|] == w && w[|w|..] == [];
  }

  /** A word written twice, separated by a space, splits into the word twice. */
  lemma WordsTwice(w: string)
    requires w != [] && forall i :: 0 <= i < |w| ==> !IsJsSpace(w[i])
    ensures Words(w + " " + w) == [w, w]
  {
    var rest := " " + w;
    assert w + " " + w == w + rest;
    WordsAfterWord(w, rest);
    assert rest[0] == ' ' && rest[1..] == w;
    WordsOfWord(w);
  }

  /** A lowercase keyword written twice, separated by a space, extracts to
      two occurrences of itself. */
  lemma TwiceKeyword(w: string)
    requires IsKeyword(w) && forall i :: 0 <= i < |w| ==> 'a' <= w[i] <= 'z'
    ensures ExtractKeywords(w + " " + w) == [w, w]
  {
    var s := w + " " + w;
    assert forall i :: 0 <= i < |s| ==> 'a' <= s[i] <= 'z' || s[i] == ' ' by {
      assert forall i :: 0 <= i < |w| ==> s[i] == w[i] && s[|w| + 1 + i] == w[i];
    }
    NormalizeLowercase(s);
    WordsTwice(w);
    var ws := [w, w];
    assert ws[0] == w && ws[1..] == [w];
    assert KeepKeywords([w]) == [w] by {
      assert [w][0] == w && [w][1..] == [];
    }
    assert KeepKeywords(ws) == ws;
  }

  /** The keyword list of every title, in order. */
  function KeywordLists(titles: seq<string>): (ls: seq<seq<string>>)
    ensures |ls| == |titles| && forall i :: 0 <= i < |titles| ==> ls[i] == ExtractKeywords(titles[i])
  {
    seq(|titles|, i requires 0 <= i < |titles| => ExtractKeywords(titles[i]))
  }

  /** Every list's distinct elements, list after list: each title contributes
      a keyword once however often it repeats it, as counting
      `new Set(extractKeywords(task.title))` per task would. */
  function DistinctEach(ls: seq<seq<string>>): seq<string>
  {
    if ls == [] then [] else DistinctEach(ls[..|ls| - 1]) + FirstSeen(ls[|ls| - 1])
  }

  /** The positions of the lists holding `t`. */
  function ListsWith(ls: seq<seq<string>>, t: string): set<int>
  {
    set i | 0 <= i < |ls| && t in ls[i]
  }

  /** The positions of the titles having `t` among their keywords. */
  function TitlesWith(titles: seq<string>, t: string): (r: set<int>)
    ensures r == ListsWith(KeywordLists(titles), t)
  {
    set i | 0 <= i < |titles| && t in KeywordSet(titles[i])
  }

  /** Topics counted by task: the keywords appearing in at least two titles,
      sorted as `findCommonTopics` sorts them. */
  function TaskTopics(titles: seq<string>): seq<string>
  {
    Keys(SortByCount(Frequent(Entries(DistinctEach(KeywordLists(titles))))))
  }

  /** A sequence's distinct elements hold each of its elements once. */
  lemma FirstSeenCount(s: seq<string>, t: string)
    ensures multiset(FirstSeen(s))[t] == if t in s then 1 else 0
  {
    var d := FirstSeen(s);
    DistinctMultiset(d);
    assert t in multiset(d) <==> t in d;
  }

  /** The lists holding `t`, split at the last list. */
  lemma ListsWithLast(ls: seq<seq<string>>, t: string)
    requires ls != []
    ensures var n := |ls| - 1;
      |ListsWith(ls, t)| == |ListsWith(ls[..n], t)| + if t in ls[n] then 1 else 0
  {
    var n := |ls| - 1;
    var before := ListsWith(ls[..n], t);
    var here: set<int> := if t in ls[n] then {n} else {};
    assert forall i :: 0 <= i < n ==> ls[i] == ls[..n][i];
    assert ListsWith(ls, t) == before + here;
    assert n !in before;
  }

  /** Each list contributes at most one occurrence of an element. */
  lemma {:induction false} DistinctEachCount(ls: seq<seq<string>>, t: string)
    ensures multiset(DistinctEach(ls))[t] == |ListsWith(ls, t)|
  {
    if ls != [] {
      var n := |ls| - 1;
      DistinctEachCount(ls[..n], t);
      FirstSeenCount(ls[n], t);
      ListsWithLast(ls, t);
      assert DistinctEach(ls) == DistinctEach(ls[..n]) + FirstSeen(ls[n]);
    }
  }

  /** Counted by task, a keyword is a topic iff at least two titles contain it. */
  lemma TaskTopicsMembers(titles: seq<string>)
    ensures forall t :: t in TaskTopics(titles) <==> |TitlesWith(titles, t)| >= 2
  {
    forall t ensures t in TaskTopics(titles) <==> |TitlesWith(titles, t)| >= 2 {
      FrequentKey(DistinctEach(KeywordLists(titles)), t);
      DistinctEachCount(KeywordLists(titles), t);
    }
  }

  /** `react` passes the filter and is all lowercase letters. */
  lemma ReactIsKeyword()
    ensures IsKeyword("react") && forall i :: 0 <= i < |"react"| ==> 'a' <= "react"[i] <= 'z'
  {
    var w := "react";
    assert forall i :: 0 <= i < |w| ==> 'a' <= w[i] <= 'z';
    assert !HasDigit(w);
    assert w !in StopWords;
  }

  lemma OneTitleKeywords(title: string)
    ensures AllKeywords([title]) == ExtractKeywords(title)
  {
    assert [title][..0] == [] && [title][0] == title;
  }

  /** A keyword occurring twice in the only title is a topic when
      occurrences are counted. */
  lemma RepeatedCounted(title: string, w: string)
    requires ExtractKeywords(title) == [w, w] && !Inherited(w)
    ensures w in CommonTopicsAsWritten([title]) && w in CommonTopics([title])
  {
    OneTitleKeywords(title);
    assert multiset([w, w])[w] == 2;
    CommonTopicsMembers([title]);
    CommonTopicsAsWrittenMembers([title]);
  }

  /** A single title contains a keyword at most once when tasks are counted. */
  lemma OnlyTitleOnce(title: string, w: string)
    ensures w !in TaskTopics([title])
  {
    TaskTopicsMembers([title]);
    var r := TitlesWith([title], w);
    assert r <= {0};
    assert r == {} || r == {0};
  }

  /** A keyword repeated within the only title is a topic when occurrences
      are counted, and no topic when tasks are. */
  lemma RepeatedInOnlyTitle(title: string, w: string)
    requires ExtractKeywords(title) == [w, w] && !Inherited(w)
    ensures w in CommonTopicsAsWritten([title]) && w in CommonTopics([title])
    ensures w !in TaskTopics([title])
  {
    RepeatedCounted(title, w);
    OnlyTitleOnce(title, w);
  }

  /** A single task titled "react react" already yields the topic `react`,
      both as written and with the object counting corrected, although no
      second task mentions it; counted by task it is no topic. */
  lemma RepeatWithinOneTitle(title: string)
    requires title == "react react"
    ensures "react" in CommonTopicsAsWritten([title]) && "react" in CommonTopics([title])
    ensures "react" !in TaskTopics([title])
  {
    var w := "react";
    ReactIsKeyword();
    TwiceKeyword(w);
    assert w + " " + w == title;
    RepeatedInOnlyTitle(title, w);
  }

}
