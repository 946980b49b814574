/** The scan of the daemon log for the browser URL: append-only, so a growing log never shows half a URL. */
module UiUrl {
  import opened Wrappers

  const PREFIX := "dsh web: "
  const SCHEME := "http://"

  /** Unicode White_Space. */
  predicate IsSpace(c: char) {
    var n := c as int;
    || 0x09 <= n <= 0x0D || n == 0x20 || n == 0x85 || n == 0xA0 || n == 0x1680 || 0x2000 <= n <= 0x200A
    || n == 0x2028 || n == 0x2029 || n == 0x202F || n == 0x205F || n == 0x3000
  }

  /** The text up to its last newline, that newline included. */
  function CompleteLines(text: string): string {
    if text == [] || text[|text| - 1] == '\n' then text else CompleteLines(text[..|text| - 1])
  }

  /** The characters before the first white space. */
  function Token(text: string): string {
    if text == [] || IsSpace(text[0]) then [] else [text[0]] + Token(text[1..])
  }

  /** The first word of `rest`, when `rest` begins with the scheme and the word holds more than it. */
  function UrlAt(rest: string): Option<string> {
    if SCHEME <= rest && |Token(rest)| > |SCHEME| then Some(Token(rest)) else None
  }

  function OptionSeq(url: Option<string>): seq<string> {
    if url.Some? then [url.value] else []
  }

  /** The URLs after the non-overlapping matches of the prefix from `i` on, in order. */
  function Matches(log: string, i: nat): seq<string>
    decreases |log| - i
  {
    if i + |PREFIX| > |log| then []
    else if log[i..i + |PREFIX|] == PREFIX then OptionSeq(UrlAt(log[i + |PREFIX|..])) + Matches(log, i + |PREFIX|)
    else Matches(log, i + 1)
  }

  function Urls(text: string): seq<string> { Matches(CompleteLines(text), 0) }

  function FirstUrl(text: string): Option<string> {
    if Urls(text) == [] then None else Some(Urls(text)[0])
  }

  function LastUrl(text: string): Option<string> {
    if Urls(text) == [] then None else Some(Urls(text)[|Urls(text)| - 1])
  }

  // ---- complete lines grow ----

  predicate EndsLine(text: string) { text == [] || text[|text| - 1] == '\n' }

  lemma {:induction false} CompleteLinesIsPrefix(text: string)
    ensures CompleteLines(text) <= text && EndsLine(CompleteLines(text))
  {
    if text != [] && text[|text| - 1] != '\n' {
      CompleteLinesIsPrefix(text[..|text| - 1]);
    }
  }

  lemma {:induction false} CompleteLinesGrow(t: string, u: string)
    ensures CompleteLines(t) <= CompleteLines(t + u)
  {
    if u == [] {
      assert t + u == t;
    } else {
      var init := u[..|u| - 1];
      CompleteLinesGrow(t, init);
      assert (t + u)[..|t + u| - 1] == t + init;
      if u[|u| - 1] == '\n' {
        CompleteLinesIsPrefix(t);
      }
    }
  }

  // ---- matches grow ----

  /** A token that ends in white space stays the same when text is appended. */
  lemma {:induction false} TokenStable(rest: string, more: string)
    requires exists i :: 0 <= i < |rest| && IsSpace(rest[i])
    ensures Token(rest + more) == Token(rest) && |Token(rest)| < |rest| && IsSpace(rest[|Token(rest)|])
    ensures Token(rest) <= rest
  {
    if !IsSpace(rest[0]) {
      var i :| 0 <= i < |rest| && IsSpace(rest[i]);
      assert IsSpace(rest[1..][i - 1]);
      TokenStable(rest[1..], more);
      assert (rest + more)[1..] == rest[1..] + more;
    }
  }

  /** After a match in complete lines the URL is decided: the line goes on to its newline. */
  lemma UrlStable(rest: string, more: string)
    requires rest != [] && rest[|rest| - 1] == '\n'
    ensures UrlAt(rest + more) == UrlAt(rest)
    ensures UrlAt(rest).Some? ==>
      UrlAt(rest).value <= rest && |UrlAt(rest).value| < |rest| && IsSpace(rest[|UrlAt(rest).value|])
  {
    assert IsSpace(rest[|rest| - 1]);
    TokenStable(rest, more);
    if SCHEME <= rest + more && |rest| < |SCHEME| {
      assert SCHEME[|rest| - 1] == (rest + more)[|rest| - 1] == '\n';
    }
  }

  lemma MatchIsMidLine(log: string, i: nat)
    requires EndsLine(log) && i + |PREFIX| <= |log| && log[i..i + |PREFIX|] == PREFIX
    ensures var rest := log[i + |PREFIX|..]; rest != [] && rest[|rest| - 1] == '\n'
  {
    assert log[i..i + |PREFIX|][|PREFIX| - 1] == ' ';
  }

  lemma {:induction false} MatchesGrow(log: string, more: string, i: nat)
    requires EndsLine(log)
    ensures Matches(log, i) <= Matches(log + more, i)
    decreases |log| - i
  {
    if i + |PREFIX| <= |log| {
      assert (log + more)[i..i + |PREFIX|] == log[i..i + |PREFIX|];
      if log[i..i + |PREFIX|] == PREFIX {
        MatchIsMidLine(log, i);
        assert (log + more)[i + |PREFIX|..] == log[i + |PREFIX|..] + more;
        UrlStable(log[i + |PREFIX|..], more);
        MatchesGrow(log, more, i + |PREFIX|);
      } else {
        MatchesGrow(log, more, i + 1);
      }
    }
  }

  /** The URLs seen in a log are a prefix of those seen in any extension of it. */
  lemma UrlsGrow(t: string, u: string)
    ensures Urls(t) <= Urls(t + u)
  {
    CompleteLinesIsPrefix(t);
    CompleteLinesGrow(t, u);
    var a, b := CompleteLines(t), CompleteLines(t + u);
    assert b == a + b[|a|..];
    MatchesGrow(a, b[|a|..], 0);
  }

  /** Once a first URL is seen it stays the first. */
  lemma FirstUrlStable(t: string, u: string)
    ensures FirstUrl(t).Some? ==> FirstUrl(t + u) == FirstUrl(t)
  {
    UrlsGrow(t, u);
  }

  /** The last URL changes only when a later one has been written. */
  lemma LastUrlMovesForward(t: string, u: string)
    requires Urls(t) != []
    ensures LastUrl(t + u).Some? && (LastUrl(t + u) == LastUrl(t) || |Urls(t + u)| > |Urls(t)|)
  {
    UrlsGrow(t, u);
  }

  // ---- which words are URLs ----

  /** `url` stands in `text` at `j`: a whole word after the prefix, more than its scheme, on a line that is complete. */
  ghost predicate UrlStands(text: string, j: nat, url: string) {
    && 9 <= j && j + |url| < |text|
    && text[j - 9..j] == "dsh web: " && text[j..j + |url|] == url
    && |url| > 7 && url[..7] == "http://"
    && (forall k | 0 <= k < |url| :: !IsSpace(url[k])) && IsSpace(text[j + |url|])
    && LineEndsAfter(text, j + |url|)
  }

  ghost predicate LineEndsAfter(text: string, i: nat) {
    exists n :: i <= n < |text| && text[n] == '\n'
  }

  lemma {:induction false} TokenIsWord(rest: string)
    ensures Token(rest) <= rest && (forall k | 0 <= k < |Token(rest)| :: !IsSpace(Token(rest)[k]))
    ensures |Token(rest)| < |rest| ==> IsSpace(rest[|Token(rest)|])
  {
    if rest != [] && !IsSpace(rest[0]) {
      TokenIsWord(rest[1..]);
    }
  }

  lemma {:induction false} WordIsToken(rest: string, word: string)
    requires word <= rest && |word| < |rest| && IsSpace(rest[|word|]) && forall k | 0 <= k < |word| :: !IsSpace(word[k])
    ensures Token(rest) == word
  {
    if word != [] {
      assert rest[0] == word[0] && !IsSpace(word[0]);
      assert word[1..] <= rest[1..] && rest[1..][|word| - 1] == rest[|word|];
      assert forall k | 0 <= k < |word| - 1 :: word[1..][k] == word[k + 1];
      WordIsToken(rest[1..], word[1..]);
      assert word == [word[0]] + word[1..];
    } else {
      assert IsSpace(rest[0]);
    }
  }

  /** What is read at a match stands there. */
  lemma ReadStands(log: string, j: nat)
    requires EndsLine(log) && 9 <= j <= |log| && log[j - 9..j] == "dsh web: " && UrlAt(log[j..]).Some?
    ensures UrlStands(log, j, UrlAt(log[j..]).value)
  {
    var rest, url := log[j..], UrlAt(log[j..]).value;
    assert log[j - 9..j][8] == ' ';
    TokenIsWord(rest);
    assert log[|log| - 1] == '\n' && rest[|rest| - 1] == '\n';
    assert |url| < |rest|;
    assert log[j..j + |url|] == rest[..|url|] == url && log[j + |url|] == rest[|url|];
    assert url[..7] == rest[..7] == "http://";
    assert LineEndsAfter(log, j + |url|);
  }

  /** What stands at a match is read there. */
  lemma StandingIsRead(log: string, j: nat, url: string)
    requires UrlStands(log, j, url)
    ensures UrlAt(log[j..]) == Some(url)
  {
    var rest := log[j..];
    assert rest[..|url|] == log[j..j + |url|] == url && rest[|url|] == log[j + |url|];
    WordIsToken(rest, url);
    assert rest[..7] == url[..7] == "http://";
  }

  lemma PrefixesDoNotOverlap(log: string, i: nat, p: nat)
    requires i <= p < i + 9 && p + 9 <= |log|
    requires log[i..i + 9] == "dsh web: " && log[p..p + 9] == "dsh web: "
    ensures p == i
  {
    assert log[p] == log[p..p + 9][0] == 'd';
    assert log[p] == log[i..i + 9][p - i];
  }

  /** After a match the next URL stands beyond the prefix just read, or right after it. */
  lemma NothingInPrefix(log: string, i: nat, j: nat, url: string)
    requires i + 9 <= |log| && log[i..i + 9] == "dsh web: " && i + 9 <= j && UrlStands(log, j, url)
    ensures j == i + 9 || i + 18 <= j
  {
    if j < i + 18 {
      PrefixesDoNotOverlap(log, i, j - 9);
    }
  }

  /** Every URL reported from `i` on stands somewhere from there on. */
  lemma {:induction false} ReportedStands(log: string, i: nat, url: string) returns (j: nat)
    requires EndsLine(log) && url in Matches(log, i)
    ensures i + 9 <= j && UrlStands(log, j, url)
    decreases |log| - i
  {
    if log[i..i + 9] == "dsh web: " {
      if UrlAt(log[i + 9..]) == Some(url) {
        ReadStands(log, i + 9);
        j := i + 9;
      } else {
        j := ReportedStands(log, i + 9, url);
      }
    } else {
      j := ReportedStands(log, i + 1, url);
    }
  }

  /** Every URL that stands from `i` on is reported. */
  lemma {:induction false} StandingIsReported(log: string, i: nat, j: nat, url: string)
    requires EndsLine(log) && i + 9 <= j && UrlStands(log, j, url)
    ensures url in Matches(log, i)
    decreases |log| - i
  {
    if log[i..i + 9] == "dsh web: " {
      NothingInPrefix(log, i, j, url);
      if j == i + 9 {
        StandingIsRead(log, j, url);
      } else {
        StandingIsReported(log, i + 9, j, url);
      }
    } else {
      assert j != i + 9;
      StandingIsReported(log, i + 1, j, url);
    }
  }

  /** The first URL reported stands before whatever else stands there. */
  lemma {:induction false} FirstStandsFirst(log: string, i: nat, j: nat, url: string) returns (first: nat)
    requires EndsLine(log) && i + 9 <= j && UrlStands(log, j, url)
    ensures Matches(log, i) != [] && i + 9 <= first <= j && UrlStands(log, first, Matches(log, i)[0])
    decreases |log| - i
  {
    if log[i..i + 9] == "dsh web: " {
      NothingInPrefix(log, i, j, url);
      if UrlAt(log[i + 9..]).Some? {
        ReadStands(log, i + 9);
        first := i + 9;
      } else {
        if j == i + 9 {
          StandingIsRead(log, j, url);
        }
        first := FirstStandsFirst(log, i + 9, j, url);
      }
    } else {
      assert j != i + 9;
      first := FirstStandsFirst(log, i + 1, j, url);
    }
  }

  /** The last URL reported stands after whatever else stands there. */
  lemma {:induction false} LastStandsLast(log: string, i: nat, j: nat, url: string) returns (last: nat)
    requires EndsLine(log) && i + 9 <= j && UrlStands(log, j, url)
    ensures Matches(log, i) != [] && j <= last && UrlStands(log, last, Matches(log, i)[|Matches(log, i)| - 1])
    decreases |log| - i
  {
    if log[i..i + 9] == "dsh web: " {
      NothingInPrefix(log, i, j, url);
      var later := Matches(log, i + 9);
      if j == i + 9 && later == [] {
        StandingIsRead(log, j, url);
        last := j;
      } else if j == i + 9 {
        var k := ReportedStands(log, i + 9, later[0]);
        last := LastStandsLast(log, i + 9, k, later[0]);
      } else {
        last := LastStandsLast(log, i + 9, j, url);
      }
    } else {
      assert j != i + 9;
      last := LastStandsLast(log, i + 1, j, url);
    }
  }

  lemma {:induction false} CompleteLinesHoldsNewlines(text: string, n: nat)
    requires n < |text| && text[n] == '\n'
    ensures n < |CompleteLines(text)|
  {
    if text[|text| - 1] != '\n' {
      CompleteLinesHoldsNewlines(text[..|text| - 1], n);
    }
  }

  lemma StandsInCompleteLines(text: string, j: nat, url: string)
    ensures UrlStands(text, j, url) <==> UrlStands(CompleteLines(text), j, url)
  {
    var log := CompleteLines(text);
    CompleteLinesIsPrefix(text);
    if UrlStands(text, j, url) {
      var n :| j + |url| <= n < |text| && text[n] == '\n';
      CompleteLinesHoldsNewlines(text, n);
      assert log[n] == text[n];
      assert log[j - 9..j] == text[j - 9..j] && log[j..j + |url|] == text[j..j + |url|];
    }
    if UrlStands(log, j, url) {
      var n :| j + |url| <= n < |log| && log[n] == '\n';
      assert text[n] == log[n];
      assert log[j - 9..j] == text[j - 9..j] && log[j..j + |url|] == text[j..j + |url|];
    }
  }

  /** The URLs of a log are exactly the words that stand in it. */
  lemma UrlsExactly(text: string, url: string)
    ensures url in Urls(text) <==> exists j: nat :: UrlStands(text, j, url)
  {
    CompleteLinesIsPrefix(text);
    if url in Urls(text) {
      var j := ReportedStands(CompleteLines(text), 0, url);
      StandsInCompleteLines(text, j, url);
    }
    if j: nat :| UrlStands(text, j, url) {
      StandsInCompleteLines(text, j, url);
      StandingIsReported(CompleteLines(text), 0, j, url);
    }
  }

  /** The first one reported stands before whatever stands in the log, the last one after. */
  lemma FirstAndLastExactly(text: string, j: nat, url: string) returns (first: nat, last: nat)
    requires UrlStands(text, j, url)
    ensures FirstUrl(text).Some? && UrlStands(text, first, FirstUrl(text).value)
    ensures LastUrl(text).Some? && UrlStands(text, last, LastUrl(text).value)
    ensures first <= j <= last
  {
    CompleteLinesIsPrefix(text);
    StandsInCompleteLines(text, j, url);
    first := FirstStandsFirst(CompleteLines(text), 0, j, url);
    last := LastStandsLast(CompleteLines(text), 0, j, url);
    StandsInCompleteLines(text, first, FirstUrl(text).value);
    StandsInCompleteLines(text, last, LastUrl(text).value);
  }

  // ---- waiting for a new URL ----

  /** One reading of the log from the remembered offset. */
  datatype Reading = Reading(tail: string, now: nat)

  ghost predicate Appending(readings: seq<Reading>) {
    forall i, j | 0 <= i <= j < |readings| :: readings[i].tail <= readings[j].tail
  }

  /** Poll until a URL is there or the deadline has passed; the readings stand for the file at each poll. */
  method WaitForNewUrl(readings: seq<Reading>, deadline: nat) returns (url: Option<string>, polls: nat)
    requires Appending(readings)
    ensures polls <= |readings|
    ensures url.Some? ==>
      && polls > 0
      && (forall i | 0 <= i < polls - 1 :: FirstUrl(readings[i].tail).None? && readings[i].now < deadline)
      && (forall i | polls - 1 <= i < |readings| :: FirstUrl(readings[i].tail) == url)
    ensures url.None? ==>
      && (forall i | 0 <= i < polls :: FirstUrl(readings[i].tail).None?)
      && (polls == |readings| || (polls > 0 && deadline <= readings[polls - 1].now))
  {
    url, polls := None, 0;
    while polls < |readings|
      invariant polls <= |readings| && url.None?
      invariant forall i | 0 <= i < polls :: FirstUrl(readings[i].tail).None? && readings[i].now < deadline
    {
      var reading := readings[polls];
      url := FirstUrl(reading.tail);
      polls := polls + 1;
      if url.Some? {
        forall i | polls - 1 <= i < |readings| ensures FirstUrl(readings[i].tail) == url {
          var tail := readings[i].tail;
          assert tail == reading.tail + tail[|reading.tail|..];
          FirstUrlStable(reading.tail, tail[|reading.tail|..]);
        }
        return;
      }
      if deadline <= reading.now {
        return;
      }
    }
  }
}
