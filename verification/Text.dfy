/** Splitting, joining and decimal numbers, as the source's string library does
    them. */
module Text {

  /** The pieces of `s` between occurrences of `sep`. */
  function Split(s: string, sep: char): (parts: seq<string>)
    ensures parts != []
    ensures forall i :: 0 <= i < |parts| ==> sep !in parts[i]
    decreases |s|
  {
    if s == "" then [""]
    else
      var rest := Split(s[1..], sep);
      if s[0] == sep then [""] + rest else [[s[0]] + rest[0]] + rest[1..]
  }

  function Join(parts: seq<string>, sep: char): string
    requires parts != []
  {
    if |parts| == 1 then parts[0] else parts[0] + [sep] + Join(parts[1..], sep)
  }

  lemma {:induction false} SplitHead(head: string, rest: string, sep: char)
    requires sep !in head
    ensures Split(head + [sep] + rest, sep) == [head] + Split(rest, sep)
  {
    var s := head + [sep] + rest;
    if head == "" {
      assert s[0] == sep && s[1..] == rest;
    } else {
      SplitHead(head[1..], rest, sep);
      assert s[0] == head[0] && s[1..] == head[1..] + [sep] + rest;
      assert [head[0]] + head[1..] == head;
    }
  }

  lemma {:induction false} SplitWhole(s: string, sep: char)
    requires sep !in s
    ensures Split(s, sep) == [s]
  {
    if s != "" {
      SplitWhole(s[1..], sep);
      assert [s[0]] + s[1..] == s;
    }
  }

  /** Splitting undoes joining. */
  lemma {:induction false} SplitJoin(parts: seq<string>, sep: char)
    requires parts != [] && forall i :: 0 <= i < |parts| ==> sep !in parts[i]
    ensures Split(Join(parts, sep), sep) == parts
  {
    if |parts| == 1 {
      SplitWhole(parts[0], sep);
    } else {
      SplitJoin(parts[1..], sep);
      SplitHead(parts[0], Join(parts[1..], sep), sep);
      assert parts == [parts[0]] + parts[1..];
    }
  }

  /** Joining undoes splitting. */
  lemma {:induction false} JoinSplit(s: string, sep: char)
    ensures Join(Split(s, sep), sep) == s
    decreases |s|
  {
    if s != "" {
      var rest := Split(s[1..], sep);
      JoinSplit(s[1..], sep);
      if s[0] == sep {
        assert ([""] + rest)[1..] == rest;
        assert "" + [sep] + Join(rest, sep) == s;
      } else {
        var parts := [[s[0]] + rest[0]] + rest[1..];
        assert parts[1..] == rest[1..];
        if |rest| > 1 {
          assert [s[0]] + rest[0] + [sep] + Join(rest[1..], sep) == [s[0]] + (rest[0] + [sep] + Join(rest[1..], sep));
        }
        assert [s[0]] + s[1..] == s;
      }
    }
  }

  /** The text of up to four pieces, spelt out. */
  lemma SplitSpelt(s: string, sep: char)
    ensures var p := Split(s, sep);
            && (|p| == 1 ==> s == p[0])
            && (|p| == 2 ==> s == p[0] + [sep] + p[1])
            && (|p| == 3 ==> s == p[0] + [sep] + (p[1] + [sep] + p[2]))
            && (|p| == 4 ==> s == p[0] + [sep] + (p[1] + [sep] + (p[2] + [sep] + p[3])))
  {
    JoinSplit(s, sep);
    var p := Split(s, sep);
    hide Split;
    if 1 < |p| <= 4 {
      var q := p[1..];
      assert Join(p, sep) == p[0] + [sep] + Join(q, sep) && q[0] == p[1];
      if |q| > 1 {
        var r := q[1..];
        assert Join(q, sep) == q[0] + [sep] + Join(r, sep) && r[0] == p[2];
        if |r| > 1 {
          assert Join(r, sep) == r[0] + [sep] + Join(r[1..], sep) && r[1..] == [p[3]];
        }
      }
    }
  }

  predicate IsDigit(c: char) {
    '0' <= c <= '9'
  }

  function Digit(d: nat): (c: char)
    requires d < 10
    ensures IsDigit(c) && (c as int) - ('0' as int) == d
  {
    ('0' as int + d) as char
  }

  /** The decimal form of a number, without leading zeros. */
  function Itoa(n: nat): (s: string)
    ensures s != "" && forall i :: 0 <= i < |s| ==> IsDigit(s[i])
    ensures s[0] == '0' <==> n == 0
    ensures n < 10 <==> |s| == 1
  {
    if n < 10 then [Digit(n)] else Itoa(n / 10) + [Digit(n % 10)]
  }

  predicate AllDigits(s: string) {
    forall i :: 0 <= i < |s| ==> IsDigit(s[i])
  }

  /** The value of a string of digits. */
  function Value(s: string): nat
    requires AllDigits(s)
  {
    if s == "" then 0 else 10 * Value(s[..|s| - 1]) + ((s[|s| - 1] as int) - ('0' as int))
  }

  lemma {:induction false} ValueOfItoa(n: nat)
    ensures AllDigits(Itoa(n)) && Value(Itoa(n)) == n
  {
    if n >= 10 {
      ValueOfItoa(n / 10);
      assert Itoa(n)[..|Itoa(n)| - 1] == Itoa(n / 10);
    } else {
      assert Itoa(n)[..0] == "";
    }
  }

  /** A number is the only one with its digits, leading zeros apart. */
  lemma {:induction false} ItoaOfValue(s: string)
    requires s != "" && AllDigits(s) && (s[0] == '0' ==> |s| == 1)
    ensures Itoa(Value(s)) == s
  {
    var last := s[|s| - 1];
    assert s == s[..|s| - 1] + [last];
    assert Digit((last as int) - ('0' as int)) == last;
    if |s| == 1 {
      assert s[..0] == "";
    } else {
      ItoaOfValue(s[..|s| - 1]);
    }
  }

  /** White space as Unicode has it. */
  predicate IsSpace(c: char) {
    || '\t' <= c <= '\r'
    || c == ' '
    || c == '\U{85}' || c == '\U{A0}' || c == '\U{1680}'
    || '\U{2000}' <= c <= '\U{200A}'
    || c == '\U{2028}' || c == '\U{2029}' || c == '\U{202F}' || c == '\U{205F}' || c == '\U{3000}'
  }

  const SPACES := "\t\n\U{B}\U{C}\r \U{85}\U{A0}\U{1680}"
    + "\U{2000}\U{2001}\U{2002}\U{2003}\U{2004}\U{2005}\U{2006}\U{2007}\U{2008}\U{2009}\U{200A}"
    + "\U{2028}\U{2029}\U{202F}\U{205F}\U{3000}"

  /** The 25 characters there are. */
  lemma SpacesListed(c: char)
    ensures IsSpace(c) <==> c in SPACES
  {
  }

  predicate AllSpaces(s: string) {
    forall i :: 0 <= i < |s| ==> IsSpace(s[i])
  }

  /** `s` without white space at its ends. */
  function TrimSpace(s: string): string
    decreases |s|
  {
    if s == "" then ""
    else if IsSpace(s[0]) then TrimSpace(s[1..])
    else if IsSpace(s[|s| - 1]) then TrimSpace(s[..|s| - 1])
    else s
  }

  lemma FrontSpace(s: string, lead: string, word: string, trail: string)
    requires s != "" && IsSpace(s[0]) && AllSpaces(lead) && s[1..] == lead + word + trail
    ensures s == ([s[0]] + lead) + word + trail && AllSpaces([s[0]] + lead)
  {
    assert s == [s[0]] + s[1..];
  }

  lemma BackSpace(s: string, lead: string, word: string, trail: string)
    requires s != "" && IsSpace(s[|s| - 1]) && AllSpaces(trail) && s[..|s| - 1] == lead + word + trail
    ensures s == lead + word + (trail + [s[|s| - 1]]) && AllSpaces(trail + [s[|s| - 1]])
  {
    assert s == s[..|s| - 1] + [s[|s| - 1]];
  }

  /** Trimming takes white space from the ends and nothing else. */
  lemma {:induction false} TrimSpaceSplits(s: string) returns (lead: string, trail: string)
    ensures s == lead + TrimSpace(s) + trail && AllSpaces(lead) && AllSpaces(trail)
    decreases |s|
  {
    lead, trail := "", "";
    if s != "" {
      if IsSpace(s[0]) {
        lead, trail := TrimSpaceSplits(s[1..]);
        FrontSpace(s, lead, TrimSpace(s), trail);
        lead := [s[0]] + lead;
      } else if IsSpace(s[|s| - 1]) {
        lead, trail := TrimSpaceSplits(s[..|s| - 1]);
        BackSpace(s, lead, TrimSpace(s), trail);
        trail := trail + [s[|s| - 1]];
      }
    }
  }

  /** Trimming takes all the white space there is around a word. */
  lemma {:induction false} TrimSpaceFinds(lead: string, word: string, trail: string)
    requires AllSpaces(lead) && AllSpaces(trail)
    requires word != "" && !IsSpace(word[0]) && !IsSpace(word[|word| - 1])
    ensures TrimSpace(lead + word + trail) == word
    decreases |lead| + |trail|
  {
    var s := lead + word + trail;
    if lead != "" {
      assert s[1..] == lead[1..] + word + trail;
      TrimSpaceFinds(lead[1..], word, trail);
    } else if trail != "" {
      assert s[..|s| - 1] == lead + word + trail[..|trail| - 1];
      assert s[|s| - 1] == trail[|trail| - 1];
      TrimSpaceFinds(lead, word, trail[..|trail| - 1]);
    } else {
      assert s == word;
    }
  }
}
