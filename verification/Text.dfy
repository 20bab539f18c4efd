/** Optional values. */
module Options {
  datatype Option<+T> = None | Some(value: T)
}

/** The few string operations the daemon relies on: splitting on a separator,
    joining back, white-space trimming and white-space separated fields. */
module Text {

  /** Splits `s` at every occurrence of `sep`; the result is never empty. */
  function Split<T(==)>(s: seq<T>, sep: T): (parts: seq<seq<T>>)
    ensures parts != []
  {
    if s == [] then [[]]
    else
      var rest := Split(s[1..], sep);
      if s[0] == sep then [[]] + rest else [[s[0]] + rest[0]] + rest[1..]
  }

  /** Glues `parts` together with one `sep` between neighbours. */
  function Join<T>(parts: seq<seq<T>>, sep: T): seq<T>
    requires parts != []
  {
    if |parts| == 1 then parts[0] else parts[0] + [sep] + Join(parts[1..], sep)
  }

  /** A separator-free part in front of a separator is exactly the first piece of the split. */
  lemma {:induction false} SplitAfterPart<T>(part: seq<T>, rest: seq<T>, sep: T)
    requires sep !in part
    ensures Split(part + [sep] + rest, sep) == [part] + Split(rest, sep)
  {
    var whole := part + [sep] + rest;
    if part == [] {
      assert whole[1..] == rest;
    } else {
      assert whole[1..] == part[1..] + [sep] + rest;
      SplitAfterPart(part[1..], rest, sep);
      assert [part[0]] + part[1..] == part;
    }
  }

  lemma {:induction false} SplitWithoutSeparator<T>(part: seq<T>, sep: T)
    requires sep !in part
    ensures Split(part, sep) == [part]
  {
    if part != [] {
      SplitWithoutSeparator(part[1..], sep);
      assert [part[0]] + part[1..] == part;
    }
  }

  /** Splitting undoes joining, as long as no part contains the separator. */
  lemma {:induction false} SplitJoin<T>(parts: seq<seq<T>>, sep: T)
    requires parts != []
    requires forall i :: 0 <= i < |parts| ==> sep !in parts[i]
    ensures Split(Join(parts, sep), sep) == parts
  {
    if |parts| == 1 {
      SplitWithoutSeparator(parts[0], sep);
    } else {
      SplitJoin(parts[1..], sep);
      SplitAfterPart(parts[0], Join(parts[1..], sep), sep);
    }
  }

  /** Joining undoes splitting, and no piece contains the separator. */
  lemma {:induction false} JoinSplit<T>(s: seq<T>, sep: T)
    ensures Join(Split(s, sep), sep) == s
    ensures forall i :: 0 <= i < |Split(s, sep)| ==> sep !in Split(s, sep)[i]
  {
    if s != [] {
      JoinSplit(s[1..], sep);
      var rest := Split(s[1..], sep);
      if s[0] == sep {
        assert (([[]] + rest)[1..]) == rest;
      } else {
        var parts := Split(s, sep);
        assert parts[1..] == rest[1..];
        if |rest| > 1 {
          assert [s[0]] + rest[0] + [sep] + Join(rest[1..], sep) == [s[0]] + (rest[0] + [sep] + Join(rest[1..], sep));
        }
      }
    }
  }

  /** Two split texts put side by side: the last piece of the first and the first of the second fuse. */
  function Fuse<T>(front: seq<seq<T>>, back: seq<seq<T>>): (parts: seq<seq<T>>)
    requires front != [] && back != []
    ensures |parts| == |front| + |back| - 1
  {
    front[..|front| - 1] + [front[|front| - 1] + back[0]] + back[1..]
  }

  lemma FuseAfterFirst<T>(first: seq<T>, front: seq<seq<T>>, back: seq<seq<T>>)
    requires front != [] && back != []
    ensures Fuse([first] + front, back) == [first] + Fuse(front, back)
  {
    var longer := [first] + front;
    assert longer[..|longer| - 1] == [first] + front[..|front| - 1];
  }

  lemma FuseExtendFirst<T>(c: T, front: seq<seq<T>>, back: seq<seq<T>>)
    requires front != [] && back != []
    ensures Fuse([[c] + front[0]] + front[1..], back)
         == [[c] + Fuse(front, back)[0]] + Fuse(front, back)[1..]
  {
    var longer := [[c] + front[0]] + front[1..];
    if |front| == 1 {
      assert ([c] + front[0]) + back[0] == [c] + (front[0] + back[0]);
    } else {
      assert longer[..|longer| - 1] == [[c] + front[0]] + front[1..|front| - 1];
      assert Fuse(front, back)[0] == front[0];
      assert Fuse(front, back)[1..] == front[1..|front| - 1] + [front[|front| - 1] + back[0]] + back[1..];
    }
  }

  lemma {:induction false} SplitAppend<T>(front: seq<T>, back: seq<T>, sep: T)
    ensures Split(front + back, sep) == Fuse(Split(front, sep), Split(back, sep))
  {
    var b := Split(back, sep);
    if front == [] {
      assert front + back == back;
      assert [] + b[0] == b[0];
    } else {
      assert (front + back)[1..] == front[1..] + back;
      SplitAppend(front[1..], back, sep);
      var rest := Split(front[1..], sep);
      if front[0] == sep {
        FuseAfterFirst([], rest, b);
      } else {
        FuseExtendFirst(front[0], rest, b);
      }
    }
  }

  /** The last piece is empty exactly when the text is empty or ends in a separator. */
  lemma {:induction false} LastPieceEmpty<T>(s: seq<T>, sep: T)
    ensures var parts := Split(s, sep); parts[|parts| - 1] == [] <==> (s == [] || s[|s| - 1] == sep)
  {
    if s != [] {
      LastPieceEmpty(s[1..], sep);
    }
  }

  /** White space as Go's unicode.IsSpace sees it in Latin-1. */
  predicate IsSpace(c: char) {
    c == ' ' || '\t' <= c <= '\r' || c == '\U{85}' || c == '\U{A0}'
  }

  /** strings.TrimSpace(s) == "". */
  predicate IsBlank(s: string) {
    forall i :: 0 <= i < |s| ==> IsSpace(s[i])
  }

  function TrimLeft(s: string): string {
    if s != [] && IsSpace(s[0]) then TrimLeft(s[1..]) else s
  }

  function TrimRight(s: string): string {
    if s != [] && IsSpace(s[|s| - 1]) then TrimRight(s[..|s| - 1]) else s
  }

  function TrimSpace(s: string): string {
    TrimRight(TrimLeft(s))
  }

  /** Length of the longest prefix without white space. */
  function WordLength(s: string): (n: nat)
    ensures n <= |s|
    ensures forall i :: 0 <= i < n ==> !IsSpace(s[i])
    ensures n < |s| ==> IsSpace(s[n])
  {
    if s == [] || IsSpace(s[0]) then 0 else 1 + WordLength(s[1..])
  }

  /** strings.Fields: the maximal runs of non-space characters. */
  function Fields(s: string): seq<string>
    decreases |s|
  {
    if s == [] then []
    else if IsSpace(s[0]) then Fields(s[1..])
    else [s[..WordLength(s)]] + Fields(s[WordLength(s)..])
  }

  /** A non-empty run of non-space characters. */
  predicate IsWord(s: string) {
    s != [] && forall i :: 0 <= i < |s| ==> !IsSpace(s[i])
  }

  lemma {:induction false} WordLengthOfWord(word: string, rest: string)
    requires forall i :: 0 <= i < |word| ==> !IsSpace(word[i])
    requires rest == [] || IsSpace(rest[0])
    ensures WordLength(word + rest) == |word|
  {
    if word == [] {
      assert word + rest == rest;
    } else {
      assert (word + rest)[1..] == word[1..] + rest;
      WordLengthOfWord(word[1..], rest);
    }
  }

  lemma {:induction false} FieldsOfWord(word: string, rest: string)
    requires IsWord(word)
    requires rest == [] || IsSpace(rest[0])
    ensures Fields(word + rest) == [word] + Fields(rest)
  {
    WordLengthOfWord(word, rest);
    assert (word + rest)[..|word|] == word;
    assert (word + rest)[|word|..] == rest;
  }

  /** Indenting a line with blanks does not change its fields. */
  lemma {:induction false} FieldsOfIndented(indent: string, rest: string)
    requires IsBlank(indent)
    ensures Fields(indent + rest) == Fields(rest)
  {
    if indent == [] {
      assert indent + rest == rest;
    } else {
      assert (indent + rest)[1..] == indent[1..] + rest;
      FieldsOfIndented(indent[1..], rest);
    }
  }

  /** Words joined by single blanks are read back as exactly these fields. */
  lemma {:induction false} FieldsOfJoined(words: seq<string>)
    requires words != []
    requires forall i :: 0 <= i < |words| ==> IsWord(words[i])
    ensures Fields(Join(words, ' ')) == words
  {
    if |words| == 1 {
      FieldsOfWord(words[0], []);
      assert words[0] + [] == words[0];
    } else {
      var tail := Join(words[1..], ' ');
      FieldsOfJoined(words[1..]);
      FieldsOfWord(words[0], [' '] + tail);
      assert words[0] + ([' '] + tail) == words[0] + [' '] + tail;
      assert ([' '] + tail)[1..] == tail;
      assert Fields([' '] + tail) == Fields(tail);
    }
  }

  lemma {:induction false} FieldsOfBlank(s: string)
    requires IsBlank(s)
    ensures Fields(s) == []
  {
    if s != [] {
      FieldsOfBlank(s[1..]);
    }
  }

  lemma {:induction false} FieldsAppendSpace(s: string, c: char)
    requires IsSpace(c)
    ensures Fields(s + [c]) == Fields(s)
    decreases |s|
  {
    var t := s + [c];
    if s == [] {
      FieldsOfBlank(t);
    } else if IsSpace(s[0]) {
      assert t[1..] == s[1..] + [c];
      FieldsAppendSpace(s[1..], c);
    } else {
      var n := WordLength(s);
      var rest := s[n..];
      FieldsAppendSpace(rest, c);
      assert s == s[..n] + rest;
      assert t == s[..n] + (rest + [c]);
      FieldsOfWord(s[..n], rest + [c]);
    }
  }

  lemma {:induction false} FieldsOfTrimLeft(s: string)
    ensures Fields(TrimLeft(s)) == Fields(s)
  {
    if s != [] && IsSpace(s[0]) {
      FieldsOfTrimLeft(s[1..]);
    }
  }

  lemma {:induction false} FieldsOfTrimRight(s: string)
    ensures Fields(TrimRight(s)) == Fields(s)
    decreases |s|
  {
    if s != [] && IsSpace(s[|s| - 1]) {
      FieldsOfTrimRight(s[..|s| - 1]);
      FieldsAppendSpace(s[..|s| - 1], s[|s| - 1]);
      assert s[..|s| - 1] + [s[|s| - 1]] == s;
    }
  }

  /** Trimming a line first never changes which fields are read. */
  lemma FieldsOfTrimSpace(s: string)
    ensures Fields(TrimSpace(s)) == Fields(s)
  {
    FieldsOfTrimLeft(s);
    FieldsOfTrimRight(TrimLeft(s));
  }
}
