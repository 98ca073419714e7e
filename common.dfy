/** Shared vocabulary of the StudyFlow model: optional values, the outcome of a
    request to the backend or to an AI service, character classes of the two
    runtimes (JavaScript in the browser, Python on the server), and the browser's
    key-value storage injected as a map. */
module Common {

  datatype Option<+T> = None | Some(value: T)

  /** The outcome of an awaited HTTP request or external call: the response
      body, or a rejected promise / raised exception. */
  datatype Reply<+T> = Ok(value: T) | Failed

  /** JavaScript's `\s` (and the set `String.prototype.trim` removes):
      the ASCII controls TAB..CR, space, NBSP, U+1680, U+2000..U+200A,
      the line and paragraph separators, U+202F, U+205F, U+3000 and the BOM. */
  predicate IsJsSpace(c: char)
  {
    || '\t' <= c <= '\r'
    || c == ' '
    || c == '\U{00A0}'
    || c == '\U{1680}'
    || '\U{2000}' <= c <= '\U{200A}'
    || c == '\U{2028}' || c == '\U{2029}'
    || c == '\U{202F}' || c == '\U{205F}'
    || c == '\U{3000}'
    || c == '\U{FEFF}'
  }

  /** Python's whitespace for `str.strip()` and `str.split()`: unlike
      JavaScript it includes the separators U+001C..U+001F and NEL (U+0085)
      and excludes the BOM. */
  predicate IsPySpace(c: char)
  {
    || '\t' <= c <= '\r'
    || '\U{001C}' <= c <= '\U{001F}'
    || c == ' '
    || c == '\U{0085}'
    || c == '\U{00A0}'
    || c == '\U{1680}'
    || '\U{2000}' <= c <= '\U{200A}'
    || c == '\U{2028}' || c == '\U{2029}'
    || c == '\U{202F}' || c == '\U{205F}'
    || c == '\U{3000}'
  }

  predicate IsAsciiUpper(c: char) { 'A' <= c <= 'Z' }
  predicate IsAsciiLower(c: char) { 'a' <= c <= 'z' }

  /** Case mapping of one character, restricted to ASCII. */
  function LowerChar(c: char): (r: char)
    ensures !IsAsciiUpper(r)
    ensures !IsAsciiUpper(c) ==> r == c
  {
    if IsAsciiUpper(c) then (c as int + 32) as char else c
  }

  function UpperChar(c: char): (r: char)
    ensures !IsAsciiLower(r)
    ensures !IsAsciiLower(c) ==> r == c
  {
    if IsAsciiLower(c) then (c as int - 32) as char else c
  }

  /** `toLowerCase()` / `lower()`, character by character. */
  function Lower(s: string): (r: string)
    ensures |r| == |s|
    ensures forall i :: 0 <= i < |s| ==> r[i] == LowerChar(s[i])
  {
    seq(|s|, i requires 0 <= i < |s| => LowerChar(s[i]))
  }

  /** `upper()`, character by character. */
  function Upper(s: string): (r: string)
    ensures |r| == |s|
    ensures forall i :: 0 <= i < |s| ==> r[i] == UpperChar(s[i])
  {
    seq(|s|, i requires 0 <= i < |s| => UpperChar(s[i]))
  }

  /** A value held by the browser's `localStorage`. Storage holds strings;
      the model tells apart the three kinds of string the application writes:
      a calendar day rendered by `Date.prototype.toDateString` (distinct days
      give distinct strings), an integer rendered by `Number.prototype.toString`,
      and any other text. */
  datatype Value = DateText(day: int) | IntText(n: int) | Text(s: string)

  /** `localStorage`, injected as a map from keys to values. */
  type Store = map<string, Value>

  /** The browser's `localStorage`, shared by the components that use it. */
  class LocalStorage {
    var items: Store

    constructor (items: Store)
      ensures this.items == items
    {
      this.items := items;
    }
  }

  /** JavaScript truthiness of `localStorage.getItem(key)`: `null` (absent)
      and the empty string are falsy, every other string is truthy. */
  predicate StoredTruthy(store: Store, key: string)
  {
    key in store && store[key] != Text("")
  }

  // ---------------------------------------------------------------------
  // Sequences with distinct elements

  predicate Distinct<T(==)>(s: seq<T>)
  {
    forall i, j :: 0 <= i < j < |s| ==> s[i] != s[j]
  }

  lemma {:induction false} DistinctMultiset<T>(s: seq<T>)
    ensures Distinct(s) <==> forall x :: multiset(s)[x] <= 1
  {
    if s != [] {
      var t := s[1..];
      DistinctMultiset(t);
      assert s == [s[0]] + t;
      assert forall x :: multiset(s)[x] == (if x == s[0] then 1 else 0) + multiset(t)[x];
      if Distinct(s) {
        assert forall k :: 0 <= k < |t| ==> t[k] == s[k + 1];
        assert s[0] !in t;
        assert Distinct(t);
      }
      if forall x :: multiset(s)[x] <= 1 {
        assert s[0] !in multiset(t);
        forall i, j | 0 <= i < j < |s| ensures s[i] != s[j] {
          if i == 0 {
            assert s[j] == t[j - 1];
          } else {
            assert s[i] == t[i - 1] && s[j] == t[j - 1];
          }
        }
      }
    }
  }

  /** The position of the first occurrence of `x` in `s`. */
  function FirstIndex<T(==)>(s: seq<T>, x: T): (k: nat)
    requires x in s
    ensures k < |s| && s[k] == x
    ensures forall j :: 0 <= j < k ==> s[j] != x
  {
    if s[0] == x then 0 else 1 + FirstIndex(s[1..], x)
  }

  /** Appending an element moves no first occurrence, and a new element
      occurs first at the end. */
  lemma FirstIndexExtend<T>(init: seq<T>, last: T)
    ensures forall x :: x in init ==> FirstIndex(init + [last], x) == FirstIndex(init, x)
    ensures last !in init ==> FirstIndex(init + [last], last) == |init|
  {
    var s := init + [last];
    forall x | x in init ensures FirstIndex(s, x) == FirstIndex(init, x) {
      var k, k' := FirstIndex(s, x), FirstIndex(init, x);
      assert s[k'] == x;
      assert forall j :: 0 <= j < |init| ==> s[j] == init[j];
    }
  }

  /** The distinct elements of `s` in order of first occurrence: the order in
      which a JavaScript `Set`, or the keys of a plain object, remember
      what was added to them. */
  function FirstSeen<T(==,!new)>(s: seq<T>): (r: seq<T>)
    ensures forall x :: x in r <==> x in s
    ensures Distinct(r)
    ensures forall i, j :: 0 <= i < j < |r| ==> FirstIndex(s, r[i]) < FirstIndex(s, r[j])
  {
    if s == [] then []
    else
      var init, last := s[..|s| - 1], s[|s| - 1];
      assert s == init + [last];
      var d := FirstSeen(init);
      FirstIndexExtend(init, last);
      if last in d then d else d + [last]
  }

  lemma FirstSeenStep<T(!new)>(seen: seq<T>, x: T)
    ensures FirstSeen(seen + [x]) == if x in seen then FirstSeen(seen) else FirstSeen(seen) + [x]
  {
    assert (seen + [x])[..|seen|] == seen;
  }
}
