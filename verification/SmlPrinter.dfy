/** `make_log` in its imperative form: the walk of the decoders, and a text for every item. */
module SmlPrinters {
  import opened Bytes
  import opened Numerals
  import opened SecsItems
  import opened SecsWalk
  import opened SecsText
  import opened SecsDecoders
  import opened SmlPrint

  /** The buffer for the blanks in front of a line has 100 characters. */
  function PrinterRoom(): Room { path => Column(|path|) < 100 }

  lemma {:induction false} RenderAppend(a: seq<Lexeme>, b: seq<Lexeme>)
    ensures Render(a + b) == Render(a) + Render(b)
    decreases |a|
  {
    hide Spelling;
    if a == [] {
      assert a + b == b;
    } else {
      assert (a + b)[0] == a[0] && (a + b)[1..] == a[1..] + b;
      RenderAppend(a[1..], b);
    }
  }

  lemma RenderOne(x: Lexeme)
    ensures Render([x]) == Spelling(x)
  {
    hide Spelling;
    assert [x][1..] == [];
    assert Render([x][1..]) == "" && Spelling(x) + "" == Spelling(x);
  }

  /** The loop over the values of an item. */
  method PrintValues(f: Format, s: seq<byte>) returns (text: string)
    requires !f.Float?
    ensures text == Render(PrintedValues(f, s))
  {
    hide Printed, Spelling, Render, PrintedValues;
    text := "";
    var q, n := 0, ValueSize(f);
    assert s[0..] == s;
    while q + n <= |s|
      invariant q <= |s|
      invariant text + Render(PrintedValues(f, s[q..])) == Render(PrintedValues(f, s))
      decreases |s| - q
    {
      var v := s[q..q + n];
      var t := PrintValue(f, v);
      ValueRendered(f, s, q);
      Assoc(text, t, Render(PrintedValues(f, s[q + n..])));
      text := text + t;
      q := q + n;
    }
    NoneRendered(f, s[q..]);
    assert text + "" == text;
  }

  lemma NoneRendered(f: Format, s: seq<byte>)
    requires |s| < ValueSize(f)
    ensures Render(PrintedValues(f, s)) == ""
  {
  }

  lemma ValueRendered(f: Format, s: seq<byte>, q: nat)
    requires q + ValueSize(f) <= |s|
    ensures var v, more := s[q..q + ValueSize(f)], s[q + ValueSize(f)..];
            Render(PrintedValues(f, s[q..])) == (" " + Spelling(Printed(f, v))) + Render(PrintedValues(f, more))
  {
    hide Printed, Render, Decimal, HexText;
    var n := ValueSize(f);
    var v, more := Printed(f, s[q..q + n]), PrintedValues(f, s[q + n..]);
    assert s[q..][..n] == s[q..q + n] && s[q..][n..] == s[q + n..];
    assert PrintedValues(f, s[q..]) == [Gap(1), v] + more;
    RenderAppend([Gap(1), v], more);
    assert [Gap(1), v] == [Gap(1)] + [v];
    RenderAppend([Gap(1)], [v]);
    RenderOne(Gap(1));
    RenderOne(v);
    assert Spaces(1) == " ";
  }

  /** A blank and a value: my_utoa for the unsigned formats and for I1, whose byte is widened without
      its sign, and my_itoa for the others. */
  method PrintValue(f: Format, v: seq<byte>) returns (t: string)
    requires |v| == ValueSize(f) && !f.Float?
    ensures t == " " + Spelling(Printed(f, v))
  {
    var n := Bytes.Number(v);
    match f {
      case Boolean =>
        t := if v[0] == 0 then "FALSE" else "TRUE";
      case Hex =>
        t := HexText(v[0]) + " (" + Decimal(v[0]) + ")";
      case Signed(w) =>
        t := SignedDecimal(if w == W1 then n else TwosComplement(n, w.Size()));
      case _ =>
        t := SignedDecimal(n);
    }
    t := " " + t;
  }

  method PrintItem(f: Format, s: seq<byte>) returns (text: string)
    requires !f.Float?
    ensures text == Render(PrintedItem(f, s))
  {
    hide Render, PrintedValues, FormatText, CharsOf;
    ghost var tail := [Close, Newline];
    TailRendered();
    if f == Ascii {
      text := "<A \"" + CharsOf(s) + "\">\n";
      AsciiRendered(CharsOf(s));
    } else {
      var values := PrintValues(f, s);
      text := "<" + FormatText(f) + values + ">\n";
      RenderAppend([Open, Word(FormatText(f))] + PrintedValues(f, s), tail);
      RenderAppend([Open, Word(FormatText(f))], PrintedValues(f, s));
      WordRendered(FormatText(f));
    }
  }

  lemma TailRendered()
    ensures Render([Close, Newline]) == ">\n" && Render([Newline]) == "\n"
  {
    RenderOne(Newline);
    RenderOne(Close);
    assert [Close, Newline] == [Close] + [Newline];
    RenderAppend([Close], [Newline]);
  }

  lemma WordRendered(s: string)
    ensures Render([Open, Word(s)]) == "<" + s
  {
    RenderOne(Open);
    RenderOne(Word(s));
    assert [Open, Word(s)] == [Open] + [Word(s)];
    RenderAppend([Open], [Word(s)]);
  }

  lemma AsciiRendered(s: string)
    ensures Render([Open, Word("A"), Gap(1), Quoted(s), Close, Newline]) == "<A \"" + s + "\">\n"
  {
    hide Render;
    WordRendered("A");
    TailRendered();
    RenderOne(Gap(1));
    RenderOne(Quoted(s));
    assert Spaces(1) == " ";
    RenderAppend([Gap(1)], [Quoted(s)]);
    RenderAppend([Open, Word("A")], [Gap(1)] + [Quoted(s)]);
    RenderAppend([Open, Word("A")] + ([Gap(1)] + [Quoted(s)]), [Close, Newline]);
    assert [Open, Word("A"), Gap(1), Quoted(s), Close, Newline]
        == ([Open, Word("A")] + ([Gap(1)] + [Quoted(s)])) + [Close, Newline];
    assert ("<" + "A" + (" " + ("\"" + s + "\""))) + ">\n" == "<A \"" + s + "\">\n";
  }

  // ---------------------------------------------------------------- the log of a message

  /** No floating point item: their `printf` text is not part of the model. */
  predicate NoFloats(events: seq<Event>) {
    forall ev :: ev in events && ev.Item? ==> !ev.f.Float?
  }

  lemma PrintedThen(events: seq<Event>, ev: Event)
    ensures Render(PrintedAll(events + [ev])) == Render(PrintedAll(events)) + Render(PrintedEvent(ev))
  {
    hide PrintedEvent, Render;
    PrintedAppend(events, [ev]);
    assert [ev][1..] == [];
    assert PrintedAll([ev][1..]) == [] && PrintedEvent(ev) + [] == PrintedEvent(ev);
    assert PrintedAll([ev]) == PrintedEvent(ev);
    RenderAppend(PrintedAll(events), PrintedEvent(ev));
  }

  method PrintEvent(r: Read1) returns (text: string)
    requires r.GotList? || r.GotItem?
    ensures NoFloats([EventOf(r)]) ==> text == Render(PrintedEvent(EventOf(r)))
  {
    hide Render, PrintedItem, Spaces;
    text := Spaces(Column(|r.path|));
    RenderOne(Gap(Column(|r.path|)));
    match r {
      case GotList(path, n) =>
        var tail := if n > 0 then "\n" else ">\n";
        ListRendered(path, n);
        text := text + ("<L" + tail);
      case GotItem(path, f, size, s) =>
        assert EventOf(r) in [EventOf(r)];
        var t := "";
        if !f.Float? {
          t := PrintItem(f, s);
        }
        RenderAppend([Gap(Column(|path|))], PrintedItem(f, s));
        text := text + t;
    }
  }

  lemma ListRendered(path: seq<nat>, n: nat)
    ensures Render(PrintedEvent(Opened(path, n))) == Spaces(Column(|path|)) + ("<L" + if n > 0 then "\n" else ">\n")
  {
    hide Render, Spaces;
    var tail := if n > 0 then [Newline] else [Close, Newline];
    HeadRendered(n);
    assert PrintedEvent(Opened(path, n)) == [Gap(Column(|path|))] + ([Open, Word("L")] + tail);
    GapRendered(Column(|path|), [Open, Word("L")] + tail);
  }

  lemma HeadRendered(n: nat)
    ensures Render([Open, Word("L")] + if n > 0 then [Newline] else [Close, Newline])
         == "<L" + if n > 0 then "\n" else ">\n"
  {
    hide Render;
    TailRendered();
    WordRendered("L");
    RenderAppend([Open, Word("L")], [Newline]);
    RenderAppend([Open, Word("L")], [Close, Newline]);
  }

  lemma GapRendered(width: nat, xs: seq<Lexeme>)
    ensures Render([Gap(width)] + xs) == Spaces(width) + Render(xs)
  {
    hide Render;
    RenderOne(Gap(width));
    RenderAppend([Gap(width)], xs);
  }

  lemma ClosedRendered(l: nat)
    ensures Render(PrintedEvent(Closed(l))) == Spaces(Column(l + 1)) + ">\n"
  {
    hide Render, Spaces;
    TailRendered();
    RenderOne(Gap(Column(l + 1)));
    assert PrintedEvent(Closed(l)) == [Gap(Column(l + 1))] + [Close, Newline];
    RenderAppend([Gap(Column(l + 1))], [Close, Newline]);
  }

  ghost predicate Prints(b: seq<byte>, ret: Return, log: string) {
    match Walked(b, PrinterRoom(), Start())
    case Undefined => ret == OutOfBounds
    case Unknown(w) => ret == Returned(1) && (NoFloats(w.out) ==> log == Render(PrintedAll(w.out)))
    case Decoded(w) => ret == Returned(0) && (NoFloats(w.out) ==> log == Render(PrintedAll(w.out)))
  }

  ghost predicate PrintedSofar(w: Walker, closing: bool, out: seq<Event>, log: string)
    reads w, w.e, w.ie
  {
    && w.Valid() && w.room == PrinterRoom()
    && Walked(w.b, w.room, Start()) == Walked(w.b, w.room, w.State(closing, out))
    && (NoFloats(out) ==> log == Render(PrintedAll(out)))
  }

  method PrintClosings(w: Walker, ghost out0: seq<Event>, log0: string)
    returns (ok: bool, log: string, ghost out: seq<Event>)
    requires PrintedSofar(w, true, out0, log0)
    modifies w`l
    ensures if ok then PrintedSofar(w, false, out, log) else Walked(w.b, w.room, Start()) == Undefined
  {
    hide Render, PrintedAll, PrintedEvent, Spaces;
    log, out := log0, out0;
    while w.e[w.l] == 0
      invariant PrintedSofar(w, true, out, log)
      decreases w.l
    {
      if w.l == 0 {
        return false, log, out;
      }
      w.Close();
      log := log + (Spaces(Column(w.l + 1)) + ">\n");
      PrintedThen(out, Closed(w.l));
      ClosedRendered(w.l);
      assert NoFloats(out + [Closed(w.l)]) ==> NoFloats(out);
      out := out + [Closed(w.l)];
    }
    ok := true;
  }

  /** `make_log` */
  method MakeLog(b: seq<byte>) returns (ret: Return, log: string)
    ensures Prints(b, ret, log)
  {
    hide Walked, ReadTurn, Render, PrintedAll, PrintedEvent;
    var w := new Walker(b, PrinterRoom());
    ghost var out: seq<Event> := [];
    log := "";
    assert Render(PrintedAll([])) == "" by { NothingPrinted(); }
    while w.p < |b|
      invariant fresh(w) && fresh(w.e) && fresh(w.ie) && w.b == b && PrintedSofar(w, false, out, log)
      decreases |b| - w.p
    {
      Turned(b, w.room, w.State(false, out));
      var r := w.Next();
      if r.Beyond? {
        return OutOfBounds, log;
      } else if r.GotUnknown? {
        return Returned(1), log;
      }
      var text := PrintEvent(r);
      PrintedThen(out, EventOf(r));
      FloatsApart(out, EventOf(r));
      log, out := log + text, out + [EventOf(r)];
      var ok;
      ok, log, out := PrintClosings(w, out, log);
      if !ok {
        return OutOfBounds, log;
      }
    }
    AtEnd(b, w.room, w.State(false, out));
    ret := Returned(0);
  }

  lemma NothingPrinted()
    ensures Render(PrintedAll([])) == ""
  {
  }

  lemma FloatsApart(out: seq<Event>, ev: Event)
    ensures NoFloats(out + [ev]) <==> NoFloats(out) && NoFloats([ev])
  {
    assert ev in out + [ev] && ev in [ev];
    assert forall x :: x in out ==> x in out + [ev];
  }
}
