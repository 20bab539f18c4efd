/** Reading `ip -6 addr show`: the parsers against the address table that was printed. The syntax of
    prefixes is a parameter: a parser, and a printer that it undoes. */
module Listing {
  import opened Options
  import opened Text
  import opened Addresses
  import opened Kernel
  import opened Backend

  type Parser = string -> Option<Prefix>

  // ---------------------------------------------------------------- one line

  predicate IsBadFlag(flag: string) {
    flag == "dadfailed" || flag == "tentative"
  }

  predicate HasBadFlag(flags: seq<string>) {
    exists i :: 0 <= i < |flags| && IsBadFlag(flags[i])
  }

  /** An address line, taken apart. */
  datatype AddressLine = AddressLine(prefix: Prefix, bad: bool)

  function ReadLine(line: string, parse: Parser): Option<AddressLine> {
    var fields := Fields(TrimSpace(line));
    if |fields| < 2 || fields[0] != "inet6" then None
    else
      match parse(fields[1])
      case None => None
      case Some(p) => Some(AddressLine(p, HasBadFlag(fields[2..])))
  }

  /** The state told by the first of the lines that shows the prefix. */
  function StateInLines(lines: seq<string>, desired: Prefix, parse: Parser): AddressState {
    if lines == [] then Missing
    else
      var l := ReadLine(lines[0], parse);
      if l.Some? && l.value.prefix == desired then if l.value.bad then Unhealthy else Healthy
      else StateInLines(lines[1..], desired, parse)
  }

  /** Some line shows a link-local address with a bad flag. */
  predicate BrokenInLines(lines: seq<string>, parse: Parser) {
    exists i :: 0 <= i < |lines| && ShowsBroken(lines[i], parse)
  }

  predicate ShowsBroken(line: string, parse: Parser) {
    var l := ReadLine(line, parse);
    l.Some? && IsLinkLocal(l.value.prefix.addr) && l.value.bad
  }

  // ---------------------------------------------------------------- the parsers

  method FlagsAreBad(flags: seq<string>) returns (bad: bool)
    ensures bad <==> HasBadFlag(flags)
  {
    for i := 0 to |flags|
      invariant !HasBadFlag(flags[..i])
    {
      if flags[i] == "dadfailed" || flags[i] == "tentative" {
        assert IsBadFlag(flags[i]);
        return true;
      }
      assert forall k :: 0 <= k < i ==> flags[..i][k] == flags[k];
    }
    assert flags[..|flags|] == flags;
    return false;
  }

  method FindIPv6PrefixState(output: string, desired: Prefix, parse: Parser) returns (state: AddressState)
    ensures state == StateInLines(Split(output, '\n'), desired, parse)
  {
    var lines := Split(output, '\n');
    for i := 0 to |lines|
      invariant StateInLines(lines, desired, parse) == StateInLines(lines[i..], desired, parse)
    {
      var fields := Fields(TrimSpace(lines[i]));
      if |fields| < 2 || fields[0] != "inet6" {
        continue;
      }
      var existing := parse(fields[1]);
      if existing.None? || existing.value != desired {
        continue;
      }
      var bad := FlagsAreBad(fields[2..]);
      if bad {
        return Unhealthy;
      }
      return Healthy;
    }
    return Missing;
  }

  method HasProblematicLinkLocal(output: string, parse: Parser) returns (found: bool)
    ensures found <==> BrokenInLines(Split(output, '\n'), parse)
  {
    hide Split, Fields, TrimSpace, IsLinkLocal, HasBadFlag;
    var lines := Split(output, '\n');
    for i := 0 to |lines|
      invariant forall k :: 0 <= k < i ==> !ShowsBroken(lines[k], parse)
    {
      var fields := Fields(TrimSpace(lines[i]));
      if |fields| < 2 || fields[0] != "inet6" {
        continue;
      }
      var prefix := parse(fields[1]);
      if prefix.None? || !IsLinkLocal(prefix.value.addr) {
        continue;
      }
      var bad := FlagsAreBad(fields[2..]);
      if bad {
        assert ShowsBroken(lines[i], parse);
        return true;
      }
    }
    return false;
  }

  // ---------------------------------------------------------------- printing

  /** A printed line: an address with its flags, or anything that is not an address line. */
  datatype Line =
    | Entry(indent: string, prefix: Prefix, flags: seq<string>)
    | Other(text: string)

  /** The printer is undone by the parser and prints a word. */
  ghost predicate Undoes(parse: Parser, show: Prefix -> string) {
    forall p: Prefix :: parse(show(p)) == Some(p) && IsWord(show(p))
  }

  function Words(l: Line, show: Prefix -> string): seq<string>
    requires l.Entry?
  {
    ["inet6", show(l.prefix)] + l.flags
  }

  function PrintLine(l: Line, show: Prefix -> string): string {
    match l
    case Entry(indent, _, _) => indent + Join(Words(l, show), ' ')
    case Other(text) => text
  }

  predicate IsOneLine(s: string) {
    '\n' !in s
  }

  /** Indented by blanks, flags are words; other lines are really something else. */
  predicate IsProper(l: Line, parse: Parser) {
    match l
    case Entry(indent, _, flags) => IsBlank(indent) && IsOneLine(indent) && forall i :: 0 <= i < |flags| ==> IsWord(flags[i])
    case Other(text) => IsOneLine(text) && ReadLine(text, parse).None?
  }

  function PrintLines(ls: seq<Line>, show: Prefix -> string): (texts: seq<string>)
    ensures |texts| == |ls|
    ensures forall i :: 0 <= i < |ls| ==> texts[i] == PrintLine(ls[i], show)
  {
    seq(|ls|, i requires 0 <= i < |ls| => PrintLine(ls[i], show))
  }

  function Print(ls: seq<Line>, show: Prefix -> string): string
    requires ls != []
  {
    Join(PrintLines(ls, show), '\n')
  }

  /** First entry for the prefix. */
  function Lookup(ls: seq<Line>, p: Prefix): AddressState {
    if ls == [] then Missing
    else if ls[0].Entry? && ls[0].prefix == p then if HasBadFlag(ls[0].flags) then Unhealthy else Healthy
    else Lookup(ls[1..], p)
  }

  predicate IsBrokenEntry(l: Line) {
    l.Entry? && IsLinkLocal(l.prefix.addr) && HasBadFlag(l.flags)
  }

  lemma {:induction false} JoinIsOneLine(words: seq<string>)
    requires words != [] && forall i :: 0 <= i < |words| ==> IsOneLine(words[i])
    ensures IsOneLine(Join(words, ' '))
  {
    if |words| > 1 {
      JoinIsOneLine(words[1..]);
    }
  }

  lemma WordIsOneLine(word: string)
    requires IsWord(word)
    ensures IsOneLine(word)
  {
    assert IsSpace('\n');
  }

  lemma WordsAreWords(l: Line, parse: Parser, show: Prefix -> string)
    requires Undoes(parse, show) && l.Entry? && IsProper(l, parse)
    ensures var words := Words(l, show); forall i :: 0 <= i < |words| ==> IsWord(words[i]) && IsOneLine(words[i])
  {
    var words := Words(l, show);
    assert IsWord("inet6");
    assert IsWord(show(l.prefix));
    hide IsWord, IsBlank;
    forall i | 0 <= i < |words|
      ensures IsWord(words[i]) && IsOneLine(words[i])
    {
      assert i >= 2 ==> words[i] == l.flags[i - 2];
      WordIsOneLine(words[i]);
    }
  }

  /** An entry reads back as what was printed, whatever its indentation. */
  lemma PrintedEntry(l: Line, parse: Parser, show: Prefix -> string)
    requires Undoes(parse, show) && l.Entry? && IsProper(l, parse)
    ensures ReadLine(PrintLine(l, show), parse) == Some(AddressLine(l.prefix, HasBadFlag(l.flags)))
  {
    var words := Words(l, show);
    WordsAreWords(l, parse, show);
    hide Fields, TrimSpace, Join, IsWord, IsBlank, IsSpace;
    FieldsOfTrimSpace(PrintLine(l, show));
    FieldsOfIndented(l.indent, Join(words, ' '));
    FieldsOfJoined(words);
    assert words[2..] == l.flags;
  }

  lemma PrintedIsOneLine(l: Line, parse: Parser, show: Prefix -> string)
    requires Undoes(parse, show) && IsProper(l, parse)
    ensures IsOneLine(PrintLine(l, show))
  {
    if l.Entry? {
      WordsAreWords(l, parse, show);
      JoinIsOneLine(Words(l, show));
    }
    hide Join, ReadLine, IsWord, IsBlank;
  }

  lemma PrintedSplits(ls: seq<Line>, parse: Parser, show: Prefix -> string)
    requires Undoes(parse, show) && ls != [] && forall i :: 0 <= i < |ls| ==> IsProper(ls[i], parse)
    ensures Split(Print(ls, show), '\n') == PrintLines(ls, show)
  {
    var texts := PrintLines(ls, show);
    forall i | 0 <= i < |texts|
      ensures '\n' !in texts[i]
    {
      PrintedIsOneLine(ls[i], parse, show);
    }
    hide PrintLine, IsProper;
    SplitJoin(texts, '\n');
  }

  lemma {:induction false} LinesLookup(ls: seq<Line>, p: Prefix, parse: Parser, show: Prefix -> string)
    requires Undoes(parse, show) && forall i :: 0 <= i < |ls| ==> IsProper(ls[i], parse)
    ensures StateInLines(PrintLines(ls, show), p, parse) == Lookup(ls, p)
  {
    if ls != [] {
      assert PrintLines(ls, show)[1..] == PrintLines(ls[1..], show);
      LinesLookup(ls[1..], p, parse, show);
      if ls[0].Entry? {
        PrintedEntry(ls[0], parse, show);
      }
      hide ReadLine, HasBadFlag;
    }
  }

  /** The parser agrees with the table: on a printed listing, with any other lines in between, it finds
      the state of the first entry for the prefix. */
  lemma {:induction false} ParserFindsEntry(ls: seq<Line>, p: Prefix, parse: Parser, show: Prefix -> string)
    requires Undoes(parse, show) && ls != [] && forall i :: 0 <= i < |ls| ==> IsProper(ls[i], parse)
    ensures StateInLines(Split(Print(ls, show), '\n'), p, parse) == Lookup(ls, p)
  {
    PrintedSplits(ls, parse, show);
    LinesLookup(ls, p, parse, show);
    hide StateInLines, Lookup, PrintLine, IsProper;
  }

  /** It sees a broken link-local address exactly when one was printed. */
  lemma {:induction false} ParserSeesBroken(ls: seq<Line>, parse: Parser, show: Prefix -> string)
    requires Undoes(parse, show) && ls != [] && forall i :: 0 <= i < |ls| ==> IsProper(ls[i], parse)
    ensures BrokenInLines(Split(Print(ls, show), '\n'), parse) <==> exists i :: 0 <= i < |ls| && IsBrokenEntry(ls[i])
  {
    PrintedSplits(ls, parse, show);
    var texts := PrintLines(ls, show);
    forall i | 0 <= i < |ls|
      ensures ShowsBroken(texts[i], parse) <==> IsBrokenEntry(ls[i])
    {
      if ls[i].Entry? {
        PrintedEntry(ls[i], parse, show);
      }
    }
    hide ReadLine, HasBadFlag, PrintLine, IsProper, IsLinkLocal, ShowsBroken, IsBrokenEntry, Print;
    if exists i :: 0 <= i < |ls| && IsBrokenEntry(ls[i]) {
      var i :| 0 <= i < |ls| && IsBrokenEntry(ls[i]);
      assert ShowsBroken(texts[i], parse);
    }
    if BrokenInLines(texts, parse) {
      var i :| 0 <= i < |texts| && ShowsBroken(texts[i], parse);
      assert IsBrokenEntry(ls[i]);
    }
  }

  // ---------------------------------------------------------------- the kernel's listing

  /** The listing shows exactly the addresses of the device, each with a bad flag exactly if it is not
      usable. */
  ghost predicate Shows(ls: seq<Line>, n: Network, dev: string) {
    && (forall i :: 0 <= i < |ls| && ls[i].Entry? ==>
          (dev, ls[i].prefix) in n.addrs && (HasBadFlag(ls[i].flags) <==> !n.addrs[(dev, ls[i].prefix)]))
    && (forall p: Prefix :: (dev, p) in n.addrs ==> exists i :: 0 <= i < |ls| && ls[i].Entry? && ls[i].prefix == p)
  }

  lemma {:induction false} LookupOfEntry(ls: seq<Line>, n: Network, dev: string, p: Prefix)
    requires forall i :: 0 <= i < |ls| && ls[i].Entry? ==>
               (dev, ls[i].prefix) in n.addrs && (HasBadFlag(ls[i].flags) <==> !n.addrs[(dev, ls[i].prefix)])
    ensures Lookup(ls, p) == if exists i :: 0 <= i < |ls| && ls[i].Entry? && ls[i].prefix == p then StateOf(n, dev, p) else Missing
  {
    hide HasBadFlag;
    if ls != [] {
      LookupOfEntry(ls[1..], n, dev, p);
      if !(ls[0].Entry? && ls[0].prefix == p) {
        if i :| 0 <= i < |ls| && ls[i].Entry? && ls[i].prefix == p {
          assert ls[1..][i - 1] == ls[i];
        }
        if i :| 0 <= i < |ls[1..]| && ls[1..][i].Entry? && ls[1..][i].prefix == p {
          assert ls[1..][i] == ls[i + 1];
        }
      } else {
        assert ls[0].prefix == p;
      }
    }
  }

  lemma BrokenIsShown(ls: seq<Line>, n: Network, dev: string)
    requires Shows(ls, n, dev)
    ensures (exists i :: 0 <= i < |ls| && IsBrokenEntry(ls[i])) <==> n.BrokenLinkLocal(dev)
  {
    hide HasBadFlag, IsLinkLocal;
    if i :| 0 <= i < |ls| && IsBrokenEntry(ls[i]) {
      assert (dev, ls[i].prefix) in n.addrs.Keys;
    }
    if n.BrokenLinkLocal(dev) {
      var key :| key in n.addrs.Keys && key.0 == dev && IsLinkLocal(key.1.addr) && !n.addrs[key];
      assert (dev, key.1) in n.addrs;
      var i :| 0 <= i < |ls| && ls[i].Entry? && ls[i].prefix == key.1;
      assert IsBrokenEntry(ls[i]);
    }
  }

  /** What the daemon reads off a device's listing is what the kernel holds. */
  lemma {:induction false} ParserReadsKernel(ls: seq<Line>, n: Network, dev: string, p: Prefix, parse: Parser, show: Prefix -> string)
    requires Undoes(parse, show) && ls != [] && forall i :: 0 <= i < |ls| ==> IsProper(ls[i], parse)
    requires Shows(ls, n, dev)
    ensures StateInLines(Split(Print(ls, show), '\n'), p, parse) == StateOf(n, dev, p)
    ensures BrokenInLines(Split(Print(ls, show), '\n'), parse) <==> n.BrokenLinkLocal(dev)
  {
    ParserFindsEntry(ls, p, parse, show);
    ParserSeesBroken(ls, parse, show);
    LookupOfEntry(ls, n, dev, p);
    BrokenIsShown(ls, n, dev);
    hide StateInLines, BrokenInLines, Lookup, Print, HasBadFlag, IsProper, IsLinkLocal, IsBrokenEntry,
         Network.BrokenLinkLocal;
  }

  // ---------------------------------------------------------------- a console

  /** The syntax of prefixes, and the lines with which the kernel answers for a device. */
  datatype RawConsole = RawConsole(parse: Parser, show: Prefix -> string, lines: (Network, string) -> seq<Line>)

  /** The lines are a listing of the device. */
  ghost predicate Lists(ls: seq<Line>, n: Network, dev: string, parse: Parser) {
    ls != [] && (forall i :: 0 <= i < |ls| ==> IsProper(ls[i], parse)) && Shows(ls, n, dev)
  }

  ghost predicate IsConsole(c: RawConsole) {
    Undoes(c.parse, c.show) && forall n: Network, dev: string :: Lists(c.lines(n, dev), n, dev, c.parse)
  }

  /** A console on which the kernel lists its addresses. */
  type Console = c: RawConsole | IsConsole(c) ghost witness (PlainIsConsole(); PLAIN)

  /** The text of a listing. */
  function Output(c: Console, n: Network, dev: string): string {
    assert Lists(c.lines(n, dev), n, dev, c.parse);
    Print(c.lines(n, dev), c.show)
  }

  /** What the parsers make of the console's output is what the kernel holds. */
  lemma OutputTells(c: Console, n: Network, dev: string, p: Prefix)
    ensures StateInLines(Split(Output(c, n, dev), '\n'), p, c.parse) == StateOf(n, dev, p)
  {
    hide StateInLines, BrokenInLines, Print, Shows, IsProper, Undoes, Network.BrokenLinkLocal, Split, StateOf;
    assert Lists(c.lines(n, dev), n, dev, c.parse);
    ParserReadsKernel(c.lines(n, dev), n, dev, p, c.parse, c.show);
  }

  lemma OutputTellsBroken(c: Console, n: Network, dev: string)
    ensures BrokenInLines(Split(Output(c, n, dev), '\n'), c.parse) <==> n.BrokenLinkLocal(dev)
  {
    hide BrokenInLines, Print, Shows, IsProper, Undoes, Network.BrokenLinkLocal, Split;
    assert Lists(c.lines(n, dev), n, dev, c.parse);
    ParserSeesBroken(c.lines(n, dev), c.parse, c.show);
    BrokenIsShown(c.lines(n, dev), n, dev);
  }

  // There are consoles: the plainest one writes numbers as strokes and lists a device's addresses in any order.

  ghost function Strokes(p: Prefix): string {
    [if p.addr.is6 then '6' else '4'] + seq(p.addr.value, _ => 'v') + seq(p.bits, _ => 'b')
  }

  lemma StrokesDiffer(p: Prefix, q: Prefix)
    requires p.addr.value < q.addr.value
    ensures Strokes(p) != Strokes(q)
  {
    var i := 1 + p.addr.value;
    assert Strokes(q)[i] == 'v';
    assert p.bits > 0 ==> Strokes(p)[i] == 'b';
    assert p.bits == 0 ==> |Strokes(p)| == i;
  }

  lemma StrokesTell(p: Prefix, q: Prefix)
    requires Strokes(p) == Strokes(q)
    ensures p == q
  {
    if p.addr.value < q.addr.value {
      StrokesDiffer(p, q);
    } else if q.addr.value < p.addr.value {
      StrokesDiffer(q, p);
    } else {
      assert Strokes(p)[0] == Strokes(q)[0];
      assert |Strokes(p)| == |Strokes(q)|;
    }
  }

  ghost function ReadStrokes(s: string): Option<Prefix> {
    if p: Prefix :| Strokes(p) == s then Some(p) else None
  }

  ghost function FlagsOf(usable: bool): seq<string> {
    if usable then [] else ["dadfailed"]
  }

  ghost function Any(keys: set<(string, Prefix)>): (key: (string, Prefix))
    requires keys != {}
    ensures key in keys
  {
    var key :| key in keys;
    key
  }

  ghost function EntriesOf(addrs: AddressTable, keys: set<(string, Prefix)>): seq<Line>
    requires keys <= addrs.Keys
  {
    if keys == {} then []
    else [Entry("", Any(keys).1, FlagsOf(addrs[Any(keys)]))] + EntriesOf(addrs, keys - {Any(keys)})
  }

  /** The entries of just these addresses of the device. */
  ghost predicate AreEntries(ls: seq<Line>, addrs: AddressTable, keys: set<(string, Prefix)>, dev: string)
    requires keys <= addrs.Keys
  {
    && (forall i :: 0 <= i < |ls| ==>
          ls[i].Entry? && (dev, ls[i].prefix) in keys && ls[i].indent == "" && ls[i].flags == FlagsOf(addrs[(dev, ls[i].prefix)]))
    && (forall p: Prefix :: (dev, p) in keys ==> exists i :: 0 <= i < |ls| && ls[i].Entry? && ls[i].prefix == p)
  }

  lemma OneMoreEntry(rest: seq<Line>, addrs: AddressTable, keys: set<(string, Prefix)>, dev: string, p: Prefix)
    requires keys <= addrs.Keys && (dev, p) in addrs && AreEntries(rest, addrs, keys, dev)
    ensures AreEntries([Entry("", p, FlagsOf(addrs[(dev, p)]))] + rest, addrs, keys + {(dev, p)}, dev)
  {
    hide FlagsOf;
    var ls := [Entry("", p, FlagsOf(addrs[(dev, p)]))] + rest;
    forall q: Prefix | (dev, q) in keys + {(dev, p)}
      ensures exists i :: 0 <= i < |ls| && ls[i].Entry? && ls[i].prefix == q
    {
      if q == p {
        assert ls[0].prefix == q;
      } else {
        var i :| 0 <= i < |rest| && rest[i].Entry? && rest[i].prefix == q;
        assert ls[i + 1] == rest[i];
      }
    }
  }

  lemma {:induction false} EntriesList(addrs: AddressTable, keys: set<(string, Prefix)>, dev: string)
    requires keys <= addrs.Keys && forall key <- keys :: key.0 == dev
    ensures AreEntries(EntriesOf(addrs, keys), addrs, keys, dev)
  {
    hide FlagsOf, Any;
    if keys != {} {
      hide AreEntries;
      var key := Any(keys);
      EntriesList(addrs, keys - {key}, dev);
      OneMoreEntry(EntriesOf(addrs, keys - {key}), addrs, keys - {key}, dev, key.1);
      assert key == (dev, key.1) && keys - {key} + {key} == keys;
    }
  }

  ghost function KeysOf(n: Network, dev: string): set<(string, Prefix)> {
    set key <- n.addrs.Keys | key.0 == dev
  }

  ghost function PlainLines(n: Network, dev: string): seq<Line> {
    [Other("")] + EntriesOf(n.addrs, KeysOf(n, dev))
  }

  ghost const PLAIN: RawConsole := RawConsole(ReadStrokes, Strokes, PlainLines)

  lemma StrokesUndone()
    ensures Undoes(ReadStrokes, Strokes)
  {
    forall p: Prefix
      ensures ReadStrokes(Strokes(p)) == Some(p) && IsWord(Strokes(p))
    {
      var q :| Strokes(q) == Strokes(p) && ReadStrokes(Strokes(p)) == Some(q);
      StrokesTell(p, q);
    }
  }

  lemma FlagsTell(usable: bool)
    ensures (HasBadFlag(FlagsOf(usable)) <==> !usable) && forall i :: 0 <= i < |FlagsOf(usable)| ==> IsWord(FlagsOf(usable)[i])
  {
    assert IsBadFlag("dadfailed");
    assert FlagsOf(false)[0] == "dadfailed";
  }

  lemma NothingRead(parse: Parser)
    ensures IsProper(Other(""), parse)
  {
    assert Fields(TrimSpace("")) == [];
  }

  lemma EntriesShow(rest: seq<Line>, n: Network, dev: string)
    requires AreEntries(rest, n.addrs, KeysOf(n, dev), dev)
    ensures Lists([Other("")] + rest, n, dev, ReadStrokes)
  {
    hide HasBadFlag, FlagsOf, ReadStrokes, IsWord, ReadLine;
    var ls := [Other("")] + rest;
    NothingRead(ReadStrokes);
    forall i | 0 <= i < |ls|
      ensures IsProper(ls[i], ReadStrokes)
      ensures ls[i].Entry? ==> (dev, ls[i].prefix) in n.addrs && (HasBadFlag(ls[i].flags) <==> !n.addrs[(dev, ls[i].prefix)])
    {
      if i > 0 {
        assert ls[i] == rest[i - 1];
        FlagsTell(n.addrs[(dev, ls[i].prefix)]);
      }
    }
    forall p: Prefix | (dev, p) in n.addrs
      ensures exists i :: 0 <= i < |ls| && ls[i].Entry? && ls[i].prefix == p
    {
      assert (dev, p) in KeysOf(n, dev);
      var i :| 0 <= i < |rest| && rest[i].Entry? && rest[i].prefix == p;
      assert ls[i + 1] == rest[i];
    }
  }

  lemma {:induction false} PlainLists(n: Network, dev: string)
    ensures Lists(PlainLines(n, dev), n, dev, ReadStrokes)
  {
    hide AreEntries, Lists, ReadStrokes;
    EntriesList(n.addrs, KeysOf(n, dev), dev);
    EntriesShow(EntriesOf(n.addrs, KeysOf(n, dev)), n, dev);
  }

  lemma PlainIsConsole()
    ensures IsConsole(PLAIN)
  {
    StrokesUndone();
    hide Undoes, Lists, ReadStrokes, Strokes, PlainLines;
    assert PLAIN.parse == ReadStrokes && PLAIN.show == Strokes;
    forall n: Network, dev: string
      ensures Lists(PLAIN.lines(n, dev), n, dev, PLAIN.parse)
    {
      PlainLists(n, dev);
    }
    assert Undoes(PLAIN.parse, PLAIN.show);
    assert forall n: Network, dev: string :: Lists(PLAIN.lines(n, dev), n, dev, PLAIN.parse);
  }
}
