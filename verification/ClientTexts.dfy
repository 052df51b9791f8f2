/** Typed text: white space around words, and the words themselves. */
module ClientTexts {
  import opened Wrappers
  import opened Client

  predicate Blank(s: string) {
    forall i :: 0 <= i < |s| ==> IsWhiteSpace(s[i])
  }

  /** Nothing to trim: empty, or neither end is white space. */
  predicate Bare(s: string) {
    s == "" || (!IsWhiteSpace(s[0]) && !IsWhiteSpace(s[|s| - 1]))
  }

  /** A name as typed: without any white space. */
  predicate Word(s: string) {
    s != "" && forall i :: 0 <= i < |s| ==> !IsWhiteSpace(s[i])
  }

  /** The white space that is trimmed: the characters with the Unicode property White_Space. */
  lemma WhiteSpaceSpelled(c: char)
    ensures IsWhiteSpace(c) <==>
            c in "\t\n\r \U{B}\U{C}\U{85}\U{A0}\U{1680}\U{2028}\U{2029}\U{202F}\U{205F}\U{3000}"
            || c in "\U{2000}\U{2001}\U{2002}\U{2003}\U{2004}\U{2005}\U{2006}\U{2007}\U{2008}\U{2009}\U{200A}"
  {
  }

  lemma {:induction false} TrimStartBlank(blank: string, rest: string)
    requires Blank(blank) && (rest == "" || !IsWhiteSpace(rest[0]))
    ensures TrimStart(blank + rest) == rest
  {
    if blank == "" {
      assert blank + rest == rest;
    } else {
      assert (blank + rest)[1..] == blank[1..] + rest;
      TrimStartBlank(blank[1..], rest);
    }
  }

  lemma {:induction false} TrimEndBlank(rest: string, blank: string)
    requires Blank(blank) && (rest == "" || !IsWhiteSpace(rest[|rest| - 1]))
    ensures TrimEnd(rest + blank) == rest
  {
    if blank == "" {
      assert rest + blank == rest;
    } else {
      var all := rest + blank;
      assert all[|all| - 1] == blank[|blank| - 1] && all[..|all| - 1] == rest + blank[..|blank| - 1];
      TrimEndBlank(rest, blank[..|blank| - 1]);
    }
  }

  /** Trimming takes exactly the white space at both ends. */
  lemma Trims(before: string, core: string, after: string)
    requires Blank(before) && Blank(after) && Bare(core)
    ensures Trim(before + core + after) == core
  {
    assert before + core + after == before + (core + after);
    if core == "" {
      assert core + after == after;
      TrimStartBlank(before + after, "");
      assert (before + after) + "" == before + (core + after);
    } else {
      assert (core + after)[0] == core[0];
      TrimStartBlank(before, core + after);
      TrimEndBlank(core, after);
    }
  }

  lemma {:induction false} FirstSpace(word: string, rest: string)
    requires Word(word)
    ensures SpaceAt(word + " " + rest) == |word|
  {
    assert word[0] != ' ' by { assert IsWhiteSpace(' '); }
    assert (word + " " + rest)[0] == word[0];
    if |word| > 1 {
      FirstSpace(word[1..], rest);
      assert (word + " " + rest)[1..] == word[1..] + " " + rest;
    } else {
      assert (word + " " + rest)[1..] == " " + rest;
    }
  }

  /** A name and a body, with any white space around and, after the first space, between them. */
  lemma AddressedAnyhow(before: string, recipient: string, between: string, body: string, after: string)
    requires Blank(before) && Blank(between) && Blank(after) && Word(recipient) && Bare(body) && body != ""
    ensures Addressed(before + (recipient + " " + between + body) + after) == Some((recipient, body))
  {
    hide IsWhiteSpace;
    var text := recipient + " " + between + body;
    assert text == recipient + " " + (between + body);
    assert text[0] == recipient[0] && text[|text| - 1] == body[|body| - 1];
    Trims(before, text, after);
    FirstSpace(recipient, between + body);
    assert text[..|recipient|] == recipient && text[|recipient| + 1..] == between + body;
    Trims("", recipient, "");
    assert "" + recipient + "" == recipient;
    Trims(between, body, "");
    assert between + body + "" == between + body;
  }

  /** Without a space between two words there is nothing to send. */
  lemma NotAddressed(before: string, word: string, after: string)
    requires Blank(before) && Blank(after) && (word == "" || Word(word))
    ensures Addressed(before + word + after) == None
  {
    Trims(before, word, after);
    NoSpace(word);
  }

  lemma {:induction false} NoSpace(word: string)
    requires word == "" || Word(word)
    ensures SpaceAt(word) == |word|
  {
    assert IsWhiteSpace(' ');
    if word != "" {
      NoSpace(word[1..]);
    }
  }

  lemma {:induction false} TrimStartParts(s: string) returns (before: string)
    ensures s == before + TrimStart(s) && Blank(before) && (TrimStart(s) == "" || !IsWhiteSpace(TrimStart(s)[0]))
  {
    if s != "" && IsWhiteSpace(s[0]) {
      before := TrimStartParts(s[1..]);
      before := [s[0]] + before;
    } else {
      before := "";
    }
  }

  lemma {:induction false} TrimEndParts(s: string) returns (after: string)
    ensures s == TrimEnd(s) + after && Blank(after) && (TrimEnd(s) == "" || !IsWhiteSpace(TrimEnd(s)[|TrimEnd(s)| - 1]))
  {
    if s != "" && IsWhiteSpace(s[|s| - 1]) {
      after := TrimEndParts(s[..|s| - 1]);
      after := after + [s[|s| - 1]];
    } else {
      after := "";
    }
  }

  /** A text is what trimming leaves of it, between white space. */
  lemma TrimParts(s: string) returns (before: string, after: string)
    ensures s == before + Trim(s) + after && Blank(before) && Blank(after) && Bare(Trim(s))
  {
    before := TrimStartParts(s);
    var middle := TrimStart(s);
    after := TrimEndParts(middle);
    assert before + (Trim(s) + after) == before + Trim(s) + after;
    assert Trim(s) != "" ==> Trim(s)[0] == middle[0];
  }
}
