/** `secs_encode` (source/secs_encode_sml.c:50-905 and 909-975) as a machine that reads one token,
    or one item, a round. A list's element count comes from a look-ahead that runs the FOR loops in
    the list before the list itself is encoded; its rounds are rounds of the machine too. */
module SmlEncode {
  import opened Tokens
  import opened Programs
  import opened Flow
  import opened Bytes
  import opened SecsItems

  /** The encoder at work on the message, or ahead of it counting the elements of a list: where the
      list starts, how deep inside it, and how many elements so far. */
  datatype Mode = Emitting | Counting(saved: nat, nest: nat, count: nat)

  datatype Enc = Enc(st: St, out: seq<byte>, mode: Mode)

  datatype Verdict = Complete | Rejected | Exits | Endless
  datatype EncConfig = Working(e: Enc) | Stopped(e: Enc, how: Verdict)

  /** The data of one item: the bytes and whether they are all there; or no end, since only `>`
      ends the data. */
  datatype Data = Data(idx: nat, bytes: seq<byte>, ok: bool) | NoEnd(idx: nat)

  /** The text of a value at `i`, with a minus put in front of the next one, and the index behind it. */
  function DataText(l: Lang, p: seq<Token>, env: Env, f: Format, i: nat): (string, nat) {
    var t := TokenAt(l.ops.resolve, p, env, i);
    if (f.Signed? || f.Float?) && t.kind == Binary(Minus) then
      ("-" + TokenAt(l.ops.resolve, p, env, Past(p, i)).text, Past(p, Past(p, i)))
    else (t.text, Past(p, i))
  }

  function ItemData(l: Lang, floats: Floats, p: seq<Token>, env: Env, f: Format, i: nat): (d: Data)
    requires i <= |p|
    ensures d.idx <= |p|
    decreases |p| - i
  {
    if RawAt(p, i).kind == Binary(GreaterThan) then Data(i, [], true)
    else
      var (text, j) := DataText(l, p, env, f, i);
      var c := Convert(floats, f, text);
      if f == Boolean && !c.ok then Data(j, [], false)
      else if i == |p| then NoEnd(i)
      else
        match ItemData(l, floats, p, env, f, j)
        case NoEnd(k) => NoEnd(k)
        case Data(k, bytes, ok) => Data(k, c.bytes + bytes, c.ok && ok)
  }

  /** FOR and NEXT are the commands of the interpreter. */
  function Command(l: Lang, p: seq<Token>, k: Kind, st: St): (r: CmdOut)
    requires st.idx <= |p|
    ensures r.st.idx <= |p|
  {
    if k == For then CmdFor(l, p, st) else CmdNext(l, p, st)
  }

  function EncTurn(l: Lang, floats: Floats, p: seq<Token>, e: Enc): (c: EncConfig)
    requires e.st.idx <= |p| && (e.mode.Counting? ==> e.mode.saved <= |p|)
    ensures c.e.st.idx <= |p| && (c.e.mode.Counting? ==> c.e.mode.saved <= |p|)
  {
    var t := TokenAt(l.ops.resolve, p, e.st.env, e.st.idx);
    var e0 := e.(st := e.st.(idx := Past(p, e.st.idx)));
    if e.mode.Emitting? then EmitTurn(l, floats, p, t, e0) else CountTurn(l, p, t.kind, e0)
  }

  function EmitTurn(l: Lang, floats: Floats, p: seq<Token>, t: Token, e: Enc): (c: EncConfig)
    requires e.st.idx <= |p| && e.mode.Emitting?
    ensures c.e.st.idx <= |p| && (c.e.mode.Counting? ==> c.e.mode.saved <= |p|)
  {
    if t.kind == NullToken || t.kind == Binary(Period) then Stopped(e, Complete)
    else if t.kind == LineNumber || t.kind == EndOfLine || IsAngle(t.kind) then Working(e)
    else
      match WordOf(t.text)
      case ListWord => Working(e.(mode := Counting(e.st.idx, 0, 0)))
      case ItemWord(f) => EmitItem(l, floats, p, f, e)
      case BadWord => Stopped(e, Rejected)
      case NoWord =>
        if t.kind != For && t.kind != Next then Stopped(e, Rejected)
        else
          var r := Command(l, p, t.kind, e.st);
          match r.ret
          case Fine => Working(e.(st := r.st))
          case Bad => Stopped(e.(st := r.st), Rejected)
          case Exit => Stopped(e.(st := r.st), Exits)
          case Hung => Stopped(e.(st := r.st), Endless)
  }

  predicate IsAngle(k: Kind) { k == Binary(LessThan) || k == Binary(GreaterThan) }

  function EmitItem(l: Lang, floats: Floats, p: seq<Token>, f: Format, e: Enc): (c: EncConfig)
    requires e.st.idx <= |p| && e.mode.Emitting?
    ensures c.e.st.idx <= |p| && c.e.mode.Emitting?
  {
    match ItemData(l, floats, p, e.st.env, f, e.st.idx)
    case NoEnd(i) => Stopped(e.(st := e.st.(idx := i)), Endless)
    case Data(i, bytes, ok) =>
      var e1 := e.(st := e.st.(idx := i), out := e.out + (Header(Code(f), |bytes|) + bytes));
      if ok then Working(e1) else Stopped(e1, Rejected)
  }

  function CountTurn(l: Lang, p: seq<Token>, k: Kind, e: Enc): (c: EncConfig)
    requires e.st.idx <= |p| && e.mode.Counting? && e.mode.saved <= |p|
    ensures c.e.st.idx <= |p| && (c.e.mode.Counting? ==> c.e.mode.saved <= |p|)
  {
    var m := e.mode;
    if k == NullToken then Working(Counted(e))
    else if k == Binary(LessThan) then
      Working(e.(mode := Counting(m.saved, m.nest + 1, if m.nest == 0 then m.count + 1 else m.count)))
    else if k == Binary(GreaterThan) then
      if m.nest == 0 then Working(Counted(e)) else Working(e.(mode := Counting(m.saved, m.nest - 1, m.count)))
    else if k == For || k == Next then
      var r := Command(l, p, k, e.st);
      match r.ret
      case Fine => Working(e.(st := r.st))
      case Bad => Working(Counted(e.(st := r.st)))
      case Exit => Stopped(e.(st := r.st), Exits)
      case Hung => Stopped(e.(st := r.st), Endless)
    else Working(e)
  }

  /** The look-ahead ends: the list's header is written and the cursor goes back behind its word. */
  function Counted(e: Enc): Enc
    requires e.mode.Counting?
  {
    Enc(e.st.(idx := e.mode.saved), e.out + Header(LIST, e.mode.count), Emitting)
  }

  function EncRun(l: Lang, floats: Floats, p: seq<Token>, n: nat, c: EncConfig): (r: EncConfig)
    requires c.e.st.idx <= |p| && (c.e.mode.Counting? ==> c.e.mode.saved <= |p|)
    ensures r.e.st.idx <= |p| && (r.e.mode.Counting? ==> r.e.mode.saved <= |p|)
  {
    if n == 0 || c.Stopped? then c else EncRun(l, floats, p, n - 1, EncTurn(l, floats, p, c.e))
  }

  lemma {:induction false} EncRunAdd(l: Lang, floats: Floats, p: seq<Token>, m: nat, n: nat, c: EncConfig)
    requires c.e.st.idx <= |p| && (c.e.mode.Counting? ==> c.e.mode.saved <= |p|)
    ensures EncRun(l, floats, p, m + n, c) == EncRun(l, floats, p, n, EncRun(l, floats, p, m, c))
    decreases m
  {
    hide EncTurn;
    if m > 0 && c.Working? {
      EncRunAdd(l, floats, p, m - 1, n, EncTurn(l, floats, p, c.e));
    }
  }
}
