/** The history page (src/pages/History.tsx): the search over saved
    conversations and the name of an exported file. */
module History {
  import opened Text
  import opened ChatTypes
  import opened Lists

  /** The search key: the query trimmed and lower-cased. */
  function SearchKey(query: string): string {
    ToLower(Trim(query))
  }

  /** Some message's lower-cased content contains `key`. */
  predicate SomeMessageContains(messages: seq<ChatMessage>, key: string) {
    exists k :: 0 <= k < |messages| && Contains(ToLower(messages[k].content), key)
  }

  /** A conversation matches when its lower-cased title or the lower-cased
      content of one of its messages contains the key. */
  predicate Matches(c: Conversation, key: string) {
    Contains(ToLower(c.title), key) || SomeMessageContains(c.messages, key)
  }

  /** The list the page shows for `query`: everything for an empty key,
      otherwise the matching conversations in their loaded order. */
  function Search(all: seq<Conversation>, query: string): (shown: seq<Conversation>)
    ensures SearchKey(query) == [] ==> shown == all
    ensures forall i :: 0 <= i < |shown| ==> shown[i] in all
    ensures SearchKey(query) != [] ==> forall i :: 0 <= i < |shown| ==> Matches(shown[i], SearchKey(query))
    ensures forall i :: 0 <= i < |all| && Matches(all[i], SearchKey(query)) ==> all[i] in shown
    ensures IsSubsequence(shown, all)
  {
    var key := SearchKey(query);
    if key == [] then
      FilterKeepsAll((c: Conversation) => true, all);
      FilterIsSubsequence((c: Conversation) => true, all);
      all
    else
      FilterIsSubsequence((c: Conversation) => Matches(c, key), all);
      Filter((c: Conversation) => Matches(c, key), all)
  }

  /** Whitespace around the query does not change what is shown. */
  lemma SearchIgnoresSurroundingSpace(all: seq<Conversation>, pre: string, query: string, post: string)
    requires IsBlank(pre) && IsBlank(post)
    ensures Search(all, pre + query + post) == Search(all, query)
  {
    assert pre + query + post == pre + (query + post);
    TrimBlankPrefix(pre, query + post);
    TrimBlankSuffix(query, post);
    assert SearchKey(pre + query + post) == SearchKey(query);
  }

  // ---------------------------------------------------------------------
  // The exported file name: `title.replace(/\W+/g, "-") + ".md"`

  /** The regular-expression class `\w`: ASCII letters, digits and `_`. */
  predicate IsWordChar(c: char) {
    ('a' <= c <= 'z') || ('A' <= c <= 'Z') || ('0' <= c <= '9') || c == '_'
  }

  /** `s` with its leading run of non-word characters removed. */
  function SkipRun(s: string): (r: string)
    ensures |r| <= |s| && r == s[|s| - |r|..]
    ensures r == [] || IsWordChar(r[0])
  {
    if s != [] && !IsWordChar(s[0]) then SkipRun(s[1..]) else s
  }

  /** `s.replace(/\W+/g, "-")`: every maximal run of non-word characters
      becomes one `-`. */
  function DashRuns(s: string): (r: string)
    decreases |s|
  {
    if s == [] then []
    else if IsWordChar(s[0]) then [s[0]] + DashRuns(s[1..])
    else "-" + DashRuns(SkipRun(s))
  }

  /** The word characters of `s`, in order. */
  function WordChars(s: string): string {
    Filter(IsWordChar, s)
  }

  /** Only word characters and dashes remain, and no two dashes touch. */
  lemma {:induction false} DashRunsAlphabet(s: string)
    ensures forall i :: 0 <= i < |DashRuns(s)| ==> IsWordChar(DashRuns(s)[i]) || DashRuns(s)[i] == '-'
    ensures DashRuns(s) != [] && DashRuns(s)[0] == '-' ==> !IsWordChar(s[0])
    ensures forall i :: 0 <= i < |DashRuns(s)| - 1 ==> !(DashRuns(s)[i] == '-' && DashRuns(s)[i + 1] == '-')
    decreases |s|
  {
    if s == [] {
    } else if IsWordChar(s[0]) {
      DashRunsAlphabet(s[1..]);
      assert DashRuns(s)[1..] == DashRuns(s[1..]);
    } else {
      var rest := SkipRun(s);
      DashRunsAlphabet(rest);
      assert DashRuns(s)[1..] == DashRuns(rest);
    }
  }

  /** Skipping a run loses no word character. */
  lemma {:induction false} SkipRunKeepsWords(s: string)
    ensures WordChars(SkipRun(s)) == WordChars(s)
    decreases |s|
  {
    if s != [] && !IsWordChar(s[0]) {
      SkipRunKeepsWords(s[1..]);
    }
  }

  /** The word characters of the title survive, in order. */
  lemma {:induction false} DashRunsKeepsWords(s: string)
    ensures WordChars(DashRuns(s)) == WordChars(s)
    decreases |s|
  {
    if s == [] {
    } else if IsWordChar(s[0]) {
      DashRunsKeepsWords(s[1..]);
      assert ([s[0]] + DashRuns(s[1..]))[1..] == DashRuns(s[1..]);
    } else {
      var rest := SkipRun(s);
      DashRunsKeepsWords(rest);
      SkipRunKeepsWords(s);
      assert ("-" + DashRuns(rest))[1..] == DashRuns(rest);
    }
  }

  /** A title made of word characters only is used as it is. */
  lemma {:induction false} DashRunsOfWord(s: string)
    requires forall i :: 0 <= i < |s| ==> IsWordChar(s[i])
    ensures DashRuns(s) == s
    decreases |s|
  {
    if s != [] {
      DashRunsOfWord(s[1..]);
    }
  }

  /** A run of non-word characters is skipped up to the next word
      character. */
  lemma {:induction false} SkipRunOfRun(run: string, s: string)
    requires forall i :: 0 <= i < |run| ==> !IsWordChar(run[i])
    requires s == [] || IsWordChar(s[0])
    ensures SkipRun(run + s) == s
    decreases |run|
  {
    if run != [] {
      assert (run + s)[1..] == run[1..] + s;
      SkipRunOfRun(run[1..], s);
    } else {
      assert run + s == s;
    }
  }

  /** A maximal run of non-word characters becomes exactly one dash. */
  lemma DashRunsRun(run: string, s: string)
    requires run != [] && forall i :: 0 <= i < |run| ==> !IsWordChar(run[i])
    requires s == [] || IsWordChar(s[0])
    ensures DashRuns(run + s) == "-" + DashRuns(s)
  {
    assert (run + s)[0] == run[0];
    SkipRunOfRun(run, s);
  }

  /** Word characters are kept as they are. */
  lemma {:induction false} DashRunsWord(w: string, s: string)
    requires forall i :: 0 <= i < |w| ==> IsWordChar(w[i])
    ensures DashRuns(w + s) == w + DashRuns(s)
    decreases |w|
  {
    if w != [] {
      assert (w + s)[0] == w[0] && (w + s)[1..] == w[1..] + s;
      DashRunsWord(w[1..], s);
      assert w == [w[0]] + w[1..];
    } else {
      assert w + s == s;
    }
  }

  /** The download's file name: the title with its non-word runs dashed,
      then the extension. */
  function FileName(title: string): (name: string)
    ensures EndsWith(name, ".md")
    ensures name == DashRuns(title) + ".md"
  {
    var r := DashRuns(title) + ".md";
    assert r[|r| - 3..] == ".md";
    r
  }
}
