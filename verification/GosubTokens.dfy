/** The indices kept for GOSUB are offsets of tokens: those behind the lines of calls, in RETURN.n, and
    those behind the names of labels, which `make_labels` stores (source/program.c:221-313). */
module GosubTokens {
  import opened Tokens
  import opened Programs
  import opened Bytes
  import opened Machine
  import opened Numerals
  import opened VariableStore
  import opened Gosubs
  import opened GosubLaws
  import ProgramText

  /** The reader's bytes are those of the tokens. */
  ghost predicate Reads(r: Reader, ts: seq<Token>) {
    ProgramText.AllStorable(r.codes, ts) && ProgramText.NoNull(ts) && r.bytes == ProgramText.StoredAll(r.codes, ts)
    && |r.bytes| < TWO_64
  }

  ghost predicate OnToken(r: Reader, ts: seq<Token>, i: nat) {
    ProgramText.AllStorable(r.codes, ts) && ProgramText.Boundary(r.codes, ts, i)
  }

  /** Reading at the offset of a token gives the token and leads to the next. */
  lemma FetchAt(r: Reader, ts: seq<Token>, k: nat)
    requires Reads(r, ts) && k <= |ts|
    ensures ProgramText.Offset(r.codes, ts, k) <= |r.bytes|
    ensures TokenIn(r, ProgramText.Offset(r.codes, ts, k)) == RawAt(ts, k)
    ensures Behind(r, ProgramText.Offset(r.codes, ts, k)) == ProgramText.Offset(r.codes, ts, Past(ts, k))
  {
    hide ProgramText.Offset, ProgramText.Decode, ProgramText.AllStorable, ProgramText.StoredAll;
    ProgramText.OffsetEnds(r.codes, ts);
    if k < |ts| { ProgramText.ReadsToken(r.codes, ts, k); }
  }

  lemma BehindOnToken(r: Reader, ts: seq<Token>, i: nat)
    requires Reads(r, ts) && OnToken(r, ts, i)
    ensures i <= |r.bytes| && OnToken(r, ts, Behind(r, i))
  {
    hide ProgramText.Offset, ProgramText.AllStorable, ProgramText.StoredAll, Fetch;
    var k: nat :| k <= |ts| && i == ProgramText.Offset(r.codes, ts, k);
    FetchAt(r, ts, k);
    ProgramText.BoundaryAt(r.codes, ts, Past(ts, k));
  }

  lemma StartOnToken(r: Reader, ts: seq<Token>)
    requires Reads(r, ts)
    ensures OnToken(r, ts, 0)
  {
    hide ProgramText.Offset, ProgramText.AllStorable, ProgramText.StoredAll;
    ProgramText.OffsetEnds(r.codes, ts);
    ProgramText.BoundaryAt(r.codes, ts, 0);
  }

  lemma {:induction false} QueueOnToken(r: Reader, ts: seq<Token>, m: Store, i: nat)
    requires Reads(r, ts) && OnToken(r, ts, i) && i <= |r.bytes|
    ensures Queue(r, m, i).Queued? ==> OnToken(r, ts, Queue(r, m, i).idx)
    decreases |r.bytes| - i
  {
    hide Get, Fetch, OnToken, Reads;
    BehindOnToken(r, ts, i);
    if Behind(r, i) > i { QueueOnToken(r, ts, m, Behind(r, i)); }
  }

  lemma {:induction false} BindOnToken(r: Reader, ts: seq<Token>, m: Store, stack: seq<byte>, count: nat, i: nat)
    requires Reads(r, ts) && OnToken(r, ts, i) && i <= |r.bytes|
    ensures Bind(r, m, stack, count, i).Bound? ==> OnToken(r, ts, Bind(r, m, stack, count, i).idx)
    decreases |r.bytes| - i
  {
    hide Put, Fetch, OnToken, Reads, Take;
    var t, j := TokenIn(r, i), Behind(r, i);
    BehindOnToken(r, ts, i);
    if t.kind == Comma {
      BindOnToken(r, ts, m, stack, count, j);
    } else if t.kind == Value(Identifier) && count > 0 && Take(r.codes, stack).Some? {
      var (a, rest) := Take(r.codes, stack).value;
      var out := Put(m, r.scope(j), if ByRef(a) then Ref else Local, t.text, a.text);
      BindOnToken(r, ts, if out.Stored? then out.m else m, rest, count - 1, j);
    }
  }

  // ---------------------------------------------------------------- label variables

  /** A text that is the offset of a token. */
  ghost predicate PlacedText(r: Reader, ts: seq<Token>, text: string) {
    exists i: nat :: OnToken(r, ts, i) && text == Decimal(i)
  }

  /** The interpreter's own entries have its own types, and the labels among them hold offsets of
      tokens. */
  ghost predicate LabelsPlaced(r: Reader, ts: seq<Token>, m: Store) {
    && (forall key :: key in m && Own(key) ==> m[key].t == Sc || m[key].t == VarType.Label)
    && (forall key :: key in m && m[key].t == VarType.Label ==> Own(key) && PlacedText(r, ts, m[key].value))
  }

  lemma PlaceOnToken(r: Reader, ts: seq<Token>, text: string)
    requires Reads(r, ts) && PlacedText(r, ts, text)
    ensures OnToken(r, ts, Start(r, Some(text)))
  {
    hide OnToken, Decimal, ReadUnsigned, Fetch;
    var i: nat :| OnToken(r, ts, i) && text == Decimal(i);
    BehindOnToken(r, ts, i);
    UnsignedRoundTrip(i);
  }

  /** A put of the interpreter's own outside of labels. */
  lemma OwnPutPlaced(r: Reader, ts: seq<Token>, m: Store, sc: Scope, t: VarType, name: string, value: string)
    requires LabelsPlaced(r, ts, m) && (t == Sc || t == VarType.Label)
             && (t == VarType.Label ==> PlacedText(r, ts, value))
    requires Own(PutKey(m, sc, t, name))
    ensures Put(m, sc, t, name, value).Stored? ==> LabelsPlaced(r, ts, Put(m, sc, t, name, value).m)
  {
    hide PutKey, PlacedText;
  }

  lemma OwnPutKeyIsOwn(m: Store, sc: Scope, t: VarType, name: string)
    requires t == Sc || t == VarType.Label
    ensures Own(PutKey(m, sc, t, name))
  {
  }

  lemma UserPutPlaced(r: Reader, ts: seq<Token>, m: Store, sc: Scope, t: VarType, name: string, value: string)
    requires LabelsPlaced(r, ts, m) && RefsOk(m) && UserPut(m, t, value) && Put(m, sc, t, name, value).Stored?
    ensures LabelsPlaced(r, ts, Put(m, sc, t, name, value).m)
  {
    hide PlacedText, PutKey;
    UserPutKeyIsUser(m, sc, t, name);
  }

  lemma UserPutKeyIsUser(m: Store, sc: Scope, t: VarType, name: string)
    requires t != Sc && t != VarType.Label
    ensures !Own(PutKey(m, sc, t, name))
  {
    hide LabelKey, ProgramKey;
    UserKeys(t, sc, name);
  }

  lemma ParameterPlaced(r: Reader, ts: seq<Token>, m: Store, sc: Scope, t: VarType, name: string, value: string,
                        stack: seq<byte>, count: nat)
    requires UserPut(m, t, value) && LabelsPlaced(r, ts, m) && RefsOk(m) && PlainQueue(r, m, stack, count)
             && Put(m, sc, t, name, value).Stored?
    ensures var m1 := Put(m, sc, t, name, value).m;
            LabelsPlaced(r, ts, m1) && RefsOk(m1) && PlainQueue(r, m1, stack, count)
  {
    hide Put, LabelsPlaced, RefsOk, PlainArgs, Drained, UserPut;
    UserPutOwn(m, sc, t, name, value);
    UserPutPlaced(r, ts, m, sc, t, name, value);
    StaysPlain(m, sc, t, name, value, Drained(r.codes, stack, count));
  }

  lemma {:induction false} BindPlaced(r: Reader, ts: seq<Token>, m: Store, stack: seq<byte>, count: nat, i: nat)
    requires i <= |r.bytes| && LabelsPlaced(r, ts, m) && RefsOk(m) && PlainQueue(r, m, stack, count)
    ensures Bind(r, m, stack, count, i).Bound? ==> LabelsPlaced(r, ts, Bind(r, m, stack, count, i).m)
    decreases |r.bytes| - i
  {
    hide Put, Fetch, LabelsPlaced, RefsOk, Take, PlainQueue, UserPut;
    var t, j := TokenIn(r, i), Behind(r, i);
    if t.kind != EndOfLine {
      if t.kind == Comma {
        BindPlaced(r, ts, m, stack, count, j);
      } else if t.kind == Value(Identifier) && count > 0 && Take(r.codes, stack).Some? {
        var (a, rest) := Take(r.codes, stack).value;
        var sc, u := r.scope(j), if ByRef(a) then Ref else Local;
        TopPlain(r, m, stack, count);
        var out := Put(m, sc, u, t.text, a.text);
        if out.Stored? {
          ParameterPlaced(r, ts, m, sc, u, t.text, a.text, rest, count - 1);
          BindPlaced(r, ts, out.m, rest, count - 1, j);
        } else {
          BindPlaced(r, ts, m, rest, count - 1, j);
        }
      }
    }
  }

  // ---------------------------------------------------------------- make_labels

  const UNDEFINED_PROGRAM := "undefined"

  /** The store with the label variables; or the process ends at a label that is there twice. */
  datatype Made = Made(m: Store, ok: bool) | Ends

  /** A put whose refusal nobody looks at. */
  function Attempt(m: Store, sc: Scope, t: VarType, name: string, value: string): Option<Store> {
    match Put(m, sc, t, name, value)
    case Stored(m1) => Some(m1)
    case Refused => Some(m)
    case _ => None
  }

  /** The variables of a program: that it is defined, and where it begins. */
  function BeginPuts(m: Store, sc: Scope, i: nat): Option<Store> {
    match Attempt(m, sc, Sc, "", "DEFINED")
    case None => None
    case Some(m1) => Attempt(m1, sc, Sc, "BEGIN", Decimal(i))
  }

  /** make_labels, before there is a table of labels: every index is outside of them. */
  function MakeLabels(r: Reader, m: Store, program: string, i: nat): Made
    requires i <= |r.bytes|
    decreases |r.bytes| - i
  {
    var t, j := TokenIn(r, i), Behind(r, i);
    var u, j1 := TokenIn(r, j), Behind(r, j);
    if j == i then Made(m, true)
    else if t.kind == Begin then
      if u.kind != EndOfLine && program != DEFAULT_PROGRAM then Made(m, false)
      else
        var sc := Scope(if u.kind == EndOfLine then UNDEFINED_PROGRAM else u.text, "");
        (match BeginPuts(m, sc, j1)
         case None => Ends
         case Some(m1) => MakeLabels(r, m1, sc.program, j1))
    else if t.kind == End then MakeLabels(r, m, DEFAULT_PROGRAM, j)
    else if t.kind == After || t.kind == Kind.Label then
      if u.kind != Value(Identifier) then Made(m, false)
      else
        (match Attempt(m, Scope(program, ""), VarType.Label, u.text, Decimal(j1))
         case None => Ends
         case Some(m1) => MakeLabels(r, m1, program, j1))
    else MakeLabels(r, m, program, j)
  }

  lemma AttemptPlaced(r: Reader, ts: seq<Token>, m: Store, sc: Scope, t: VarType, name: string, i: nat)
    requires LabelsPlaced(r, ts, m) && (t == Sc || t == VarType.Label) && OnToken(r, ts, i)
    ensures Attempt(m, sc, t, name, Decimal(i)).Some? ==> LabelsPlaced(r, ts, Attempt(m, sc, t, name, Decimal(i)).value)
  {
    hide LabelsPlaced, OnToken, Decimal, PutKey;
    OwnPutKeyIsOwn(m, sc, t, name);
    assert PlacedText(r, ts, Decimal(i));
    OwnPutPlaced(r, ts, m, sc, t, name, Decimal(i));
  }

  /** Every label variable made holds the offset of a token. */
  lemma {:induction false} LabelsMade(r: Reader, ts: seq<Token>, m: Store, program: string, i: nat)
    requires Reads(r, ts) && OnToken(r, ts, i) && i <= |r.bytes| && LabelsPlaced(r, ts, m)
    ensures MakeLabels(r, m, program, i).Made? ==> LabelsPlaced(r, ts, MakeLabels(r, m, program, i).m)
    decreases |r.bytes| - i
  {
    hide LabelsPlaced, OnToken, Reads, Fetch, Put, Attempt, Decimal, BeginPuts;
    var t, j := TokenIn(r, i), Behind(r, i);
    BehindOnToken(r, ts, i);
    BehindOnToken(r, ts, j);
    var u, j1 := TokenIn(r, j), Behind(r, j);
    if j > i {
      if t.kind == Begin {
        var sc := Scope(if u.kind == EndOfLine then UNDEFINED_PROGRAM else u.text, "");
        BeginPlaced(r, ts, m, sc, j1);
        var m1 := BeginPuts(m, sc, j1);
        if m1.Some? { LabelsMade(r, ts, m1.value, sc.program, j1); }
      } else if t.kind == End {
        LabelsMade(r, ts, m, DEFAULT_PROGRAM, j);
      } else if t.kind == After || t.kind == Kind.Label {
        AttemptPlaced(r, ts, m, Scope(program, ""), VarType.Label, u.text, j1);
        var m1 := Attempt(m, Scope(program, ""), VarType.Label, u.text, Decimal(j1));
        if m1.Some? { LabelsMade(r, ts, m1.value, program, j1); }
      } else {
        LabelsMade(r, ts, m, program, j);
      }
    }
  }

  lemma BeginPlaced(r: Reader, ts: seq<Token>, m: Store, sc: Scope, i: nat)
    requires LabelsPlaced(r, ts, m) && OnToken(r, ts, i)
    ensures BeginPuts(m, sc, i).Some? ==> LabelsPlaced(r, ts, BeginPuts(m, sc, i).value)
  {
    hide LabelsPlaced, OnToken, PutKey, Decimal;
    OwnPutKeyIsOwn(m, sc, Sc, "");
    OwnPutPlaced(r, ts, m, sc, Sc, "", "DEFINED");
    var m1 := Attempt(m, sc, Sc, "", "DEFINED");
    if m1.Some? { AttemptPlaced(r, ts, m1.value, sc, Sc, "BEGIN", i); }
  }

  // ---------------------------------------------------------------- calls

  /** What the name of a GOSUB stands for; a variable of the interpreter's own is found like a label. */
  function Place(r: Reader, c: Calls): Option<string>
    requires c.idx <= |r.bytes|
  {
    Get(c.m, r.scope(Behind(r, c.idx)), VarType.Label, TokenIn(r, c.idx).text)
  }

  /** A text that reads as the offset of a token, or as a number beyond the program. */
  ghost predicate ReadsPlace(r: Reader, ts: seq<Token>, text: string) {
    var i := ReadUnsigned(text).value;
    i >= |r.bytes| || OnToken(r, ts, i)
  }

  /** The name stands for nothing or for a label, or the text of the variable it stands for reads as the
      place of a token. */
  ghost predicate Lands(r: Reader, ts: seq<Token>, c: Calls)
    requires c.idx <= |r.bytes|
  {
    var key := GetKey(c.m, r.scope(Behind(r, c.idx)), VarType.Label, TokenIn(r, c.idx).text);
    key.Some? && key.value in c.m ==> c.m[key.value].t == VarType.Label || ReadsPlace(r, ts, c.m[key.value].value)
  }

  /** A GOSUB goes to a token exactly when its name lands on one. */
  lemma JumpsOnToken(r: Reader, ts: seq<Token>, c: Calls)
    requires Reads(r, ts) && c.idx <= |r.bytes| && LabelsPlaced(r, ts, c.m)
    ensures OnToken(r, ts, Start(r, Place(r, c))) <==> Lands(r, ts, c)
  {
    hide OnToken, Reads, Fetch, LabelKey, ProgramKey, PlacedText, Decimal, ReadUnsigned;
    EndOnToken(r, ts);
    StartOnToken(r, ts);
    LabelKeysOwn(r.scope(Behind(r, c.idx)), TokenIn(r, c.idx).text);
    var key := GetKey(c.m, r.scope(Behind(r, c.idx)), VarType.Label, TokenIn(r, c.idx).text);
    if key.Some? && key.value in c.m && c.m[key.value].t == VarType.Label {
      PlaceOnToken(r, ts, c.m[key.value].value);
    }
  }

  lemma EndOnToken(r: Reader, ts: seq<Token>)
    requires Reads(r, ts)
    ensures OnToken(r, ts, |r.bytes|)
  {
    hide ProgramText.Offset, ProgramText.AllStorable, ProgramText.StoredAll;
    ProgramText.OffsetEnds(r.codes, ts);
    ProgramText.BoundaryAt(r.codes, ts, |ts|);
  }

  lemma LabelKeysOwn(sc: Scope, name: string)
    ensures Own(LabelKey(VarType.Label, sc, name)) && forall p :: Own(ProgramKey(VarType.Label, p, name))
  {
  }

  lemma CallOnToken(r: Reader, ts: seq<Token>, c: Calls)
    requires Reads(r, ts) && OnToken(r, ts, c.idx) && c.idx <= |r.bytes| && Lands(r, ts, c)
    requires LabelsPlaced(r, ts, c.m) && RefsOk(c.m) && Gosub(r, c).Went? && PlainCall(r, c)
    ensures OnToken(r, ts, Queue(r, c.m, Behind(r, c.idx)).idx)
    ensures OnToken(r, ts, Gosub(r, c).c.idx) && LabelsPlaced(r, ts, Gosub(r, c).c.m)
  {
    hide Put, Queue, Bind, Decimal, LabelsPlaced, OnToken, Reads, Fetch, Start, RefsOk, ReturnName, PlainArgs, LabelKey,
         ProgramKey, Drained, Lands;
    var i := Behind(r, c.idx);
    BehindOnToken(r, ts, c.idx);
    QueueOnToken(r, ts, c.m, i);
    var q, place := Queue(r, c.m, i), Place(r, c);
    JumpsOnToken(r, ts, c);
    var sc := r.scope(q.idx);
    var m1 := Put(c.m, sc, Sc, ReturnName(c.nest + 1), Decimal(q.idx)).m;
    OwnPutKeyIsOwn(c.m, sc, Sc, ReturnName(c.nest + 1));
    OwnPutPlaced(r, ts, c.m, sc, Sc, ReturnName(c.nest + 1), Decimal(q.idx));
    OwnPutRefs(r, ts, c.m, sc, ReturnName(c.nest + 1), Decimal(q.idx));
    StaysPlain(c.m, sc, Sc, ReturnName(c.nest + 1), Decimal(q.idx), Drained(r.codes, q.stack, q.count));
    BindOnToken(r, ts, m1, q.stack, q.count, Start(r, place));
    BindPlaced(r, ts, m1, q.stack, q.count, Start(r, place));
  }

  // ---------------------------------------------------------------- a jump into a token

  /** GOSUB TO.1 and the end of the line. */
  function GosubTo(): seq<Token> {
    [Token(Kind.Other(0), ""), Token(Value(Identifier), "TO.1"), Token(EndOfLine, "")]
  }

  function GosubCodes(): ProgramText.Codes {
    ProgramText.Codes(k => if k == Kind.Other(0) then 1
                           else if k == Value(Identifier) then 2 else if k == EndOfLine then 3 else 0,
                      b => if b == 1 then Kind.Other(0)
                           else if b == 2 then Value(Identifier) else if b == 3 then EndOfLine else NullToken)
  }

  function NameBytes(): seq<byte> { [2, 'T' as int, 'O' as int, '.' as int, '1' as int, 0] }

  function GosubBytes(): seq<byte> { [1] + NameBytes() + [3] }

  function GosubReader(behind: nat -> seq<byte>): Reader {
    Reader(GosubCodes(), GosubBytes(), _ => Scope("p", ""), behind)
  }

  /** TO.1 holds the end of the range of a FOR, 2. */
  function GosubCalls(): Calls { Calls(map["#(p)TO.1" := Cell("2", Sc)], 0, 1) }

  lemma ThreeStored(c: ProgramText.Codes, x: Token, y: Token, z: Token)
    requires ProgramText.Storable(c, x) && ProgramText.Storable(c, y) && ProgramText.Storable(c, z)
    ensures var ts, a, b, d := [x, y, z], ProgramText.Stored(c, x), ProgramText.Stored(c, y), ProgramText.Stored(c, z);
            && ProgramText.AllStorable(c, ts) && ProgramText.StoredAll(c, ts) == a + b + d
            && ProgramText.Offset(c, ts, 0) == 0 && ProgramText.Offset(c, ts, 1) == |a|
            && ProgramText.Offset(c, ts, 2) == |a| + |b| && ProgramText.Offset(c, ts, 3) == |a| + |b| + |d|
  {
    hide ProgramText.Stored, ProgramText.Storable;
    var ts := [x, y, z];
    assert ts[..0] == [] && ts[..1] == [x] && ts[..2] == [x] + [y] && ts[..3] == ts == [x] + [y] + [z];
    ProgramText.OneStored(c, x);
    ProgramText.OneStored(c, y);
    ProgramText.OneStored(c, z);
    ProgramText.StoredAppend(c, [x], [y]);
    ProgramText.StoredAppend(c, [x] + [y], [z]);
  }

  lemma CodesBack()
    ensures var c := GosubCodes();
            && c.of(Kind.Other(0)) == 1 && c.of(Value(Identifier)) == 2 && c.of(EndOfLine) == 3
            && c.kind(1) == Kind.Other(0) && c.kind(2) == Value(Identifier) && c.kind(3) == EndOfLine
            && c.kind('T' as int) == NullToken
  {
  }

  lemma PiecesStored()
    ensures var c, ts := GosubCodes(), GosubTo();
            && ProgramText.Storable(c, ts[0]) && ProgramText.Storable(c, ts[1]) && ProgramText.Storable(c, ts[2])
            && ProgramText.Stored(c, ts[0]) == [1] && ProgramText.Stored(c, ts[1]) == NameBytes()
            && ProgramText.Stored(c, ts[2]) == [3]
  {
    hide GosubCodes;
    CodesBack();
    assert ProgramText.ByteText("TO.1") == ['T' as int, 'O' as int, '.' as int, '1' as int];
  }

  lemma GosubToStored()
    ensures var c, ts := GosubCodes(), GosubTo();
            && ProgramText.AllStorable(c, ts) && ProgramText.StoredAll(c, ts) == GosubBytes()
            && ProgramText.Offset(c, ts, 0) == 0 && ProgramText.Offset(c, ts, 1) == 1
            && ProgramText.Offset(c, ts, 2) == 7 && ProgramText.Offset(c, ts, 3) == 8
  {
    hide ProgramText.Stored, ProgramText.Storable, ProgramText.StoredAll, ProgramText.AllStorable, ProgramText.Offset,
         GosubCodes;
    PiecesStored();
    ThreeStored(GosubCodes(), GosubTo()[0], GosubTo()[1], GosubTo()[2]);
  }

  lemma NoTokenInside(behind: nat -> seq<byte>)
    ensures var r, ts := GosubReader(behind), GosubTo();
            Reads(r, ts) && OnToken(r, ts, 1) && !OnToken(r, ts, 2) && !OnToken(r, ts, 3)
  {
    hide ProgramText.Offset, ProgramText.StoredAll, ProgramText.AllStorable, GosubCodes;
    GosubToStored();
    ProgramText.BoundaryAt(GosubCodes(), GosubTo(), 1);
  }

  /** What is read at the name, at the end of its line, and inside the name. */
  lemma GosubFetches(behind: nat -> seq<byte>)
    ensures var r := GosubReader(behind);
            && TokenIn(r, 1) == GosubTo()[1] && Behind(r, 1) == 7
            && TokenIn(r, 7) == GosubTo()[2] && Behind(r, 7) == 8
            && TokenIn(r, 2).kind == NullToken && Behind(r, 2) == 3
  {
    hide ProgramText.Offset, ProgramText.StoredAll, ProgramText.AllStorable, Reads, Fetch, GosubCodes, GosubBytes;
    NoTokenInside(behind);
    GosubToStored();
    FetchAt(GosubReader(behind), GosubTo(), 1);
    FetchAt(GosubReader(behind), GosubTo(), 2);
    InsideFetch(behind);
  }

  lemma InsideFetch(behind: nat -> seq<byte>)
    ensures TokenIn(GosubReader(behind), 2).kind == NullToken && Behind(GosubReader(behind), 2) == 3
  {
    hide GosubCodes;
    CodesBack();
    assert GosubBytes()[2] == 'T' as int && |GosubBytes()| == 8;
  }

  /** The input: inside of FOR i = 1 TO 2 a GOSUB to TO.1 goes to the byte 2, the 'T' of its own name.
      There is no line of parameters there: the call is an error, and the cursor stays in the token. */
  lemma JumpsIntoToken(behind: nat -> seq<byte>)
    ensures var r, c := GosubReader(behind), GosubCalls();
            && Reads(r, GosubTo()) && OnToken(r, GosubTo(), c.idx) && LabelsPlaced(r, GosubTo(), c.m)
            && Start(r, Place(r, c)) == 2 && !OnToken(r, GosubTo(), 2)
            && var o := Gosub(r, c); o.Went? && !o.ok && o.c.idx == 3 && !OnToken(r, GosubTo(), 3)
  {
    hide Reads, OnToken, Fetch, GosubCodes;
    var r, c := GosubReader(behind), GosubCalls();
    NoTokenInside(behind);
    GosubFetches(behind);
    assert ReadUnsigned("2").value == 2;
    assert ProgramKey(VarType.Label, "p", "TO.1") == "#(p)TO.1";
    assert Place(r, c) == Some("2");
  }

  lemma OwnPutRefs(r: Reader, ts: seq<Token>, m: Store, sc: Scope, name: string, value: string)
    requires LabelsPlaced(r, ts, m) && RefsOk(m) && Put(m, sc, Sc, name, value).Stored?
    ensures RefsOk(Put(m, sc, Sc, name, value).m)
  {
    hide PutKey, PlacedText;
    OwnPutKeyIsOwn(m, sc, Sc, name);
  }

  // ---------------------------------------------------------------- runs

  ghost predicate AllOnTokens(r: Reader, ts: seq<Token>, stack: seq<nat>) {
    forall k :: 0 <= k < |stack| ==> OnToken(r, ts, stack[k])
  }

  /** Along the run the cursor and the indices behind all open calls are those of tokens, when the
      moves of the program between its calls are. */
  ghost predicate StaysOnTokens(r: Reader, ts: seq<Token>, c: Calls, program: string, stack: seq<nat>, acts: seq<Act>)
    requires c.idx <= |r.bytes|
    decreases |acts|
  {
    && OnToken(r, ts, c.idx) && AllOnTokens(r, ts, stack)
    && (acts == [] ||
        match acts[0]
        case DoGosub =>
          var q := Queue(r, c.m, Behind(r, c.idx));
          q.Queued? && PlainCall(r, c) && Lands(r, ts, c) && Gosub(r, c).Went? ==>
            StaysOnTokens(r, ts, Gosub(r, c).c, program, stack + [q.idx], acts[1..])
        case DoReturn =>
          var o := Return(r, c);
          o.Went? && StaysOnTokens(r, ts, o.c, program, if stack == [] then stack else stack[..|stack| - 1], acts[1..])
        case Other(sc, t, name, value, idx) =>
          var out := Put(c.m, sc, t, name, value);
          Allowed(acts[0], program) && (t == VarType.Label ==> PlacedText(r, ts, value)) && out.Stored?
          && OnToken(r, ts, idx) && idx <= |r.bytes| ==>
            StaysOnTokens(r, ts, Calls(out.m, c.nest, idx), program, stack, acts[1..]))
  }

  lemma OtherPlaced(r: Reader, ts: seq<Token>, m: Store, a: Act, program: string)
    requires a.Other? && Allowed(a, program) && LabelsPlaced(r, ts, m) && RefsOk(m)
    requires Put(m, a.sc, a.t, a.name, a.value).Stored? && (a.t == VarType.Label ==> PlacedText(r, ts, a.value))
    ensures LabelsPlaced(r, ts, Put(m, a.sc, a.t, a.name, a.value).m)
  {
    hide Put, LabelsPlaced, RefsOk, PutKey;
    if a.t == Sc || a.t == VarType.Label {
      OwnPutKeyIsOwn(m, a.sc, a.t, a.name);
      OwnPutPlaced(r, ts, m, a.sc, a.t, a.name, a.value);
    } else {
      UserPutPlaced(r, ts, m, a.sc, a.t, a.name, a.value);
    }
  }

  lemma MoreOnTokens(r: Reader, ts: seq<Token>, stack: seq<nat>, i: nat)
    requires AllOnTokens(r, ts, stack)
    ensures OnToken(r, ts, i) ==> AllOnTokens(r, ts, stack + [i])
    ensures stack != [] ==> AllOnTokens(r, ts, stack[..|stack| - 1]) && OnToken(r, ts, stack[|stack| - 1])
  {
    hide OnToken;
  }

  lemma {:induction false} RunsOnTokens(r: Reader, ts: seq<Token>, c: Calls, program: string, stack: seq<nat>,
                                        acts: seq<Act>)
    requires Reads(r, ts) && OneProgram(r, program) && Nested(r, c, program, stack) && LabelsPlaced(r, ts, c.m)
    requires OnToken(r, ts, c.idx) && AllOnTokens(r, ts, stack)
    ensures StaysOnTokens(r, ts, c, program, stack, acts)
    decreases |acts|
  {
    hide Put, Gosub, Queue, Allowed, PlainCall, LabelsPlaced, OnToken, Reads, AllOnTokens, Lands, PlacedText,
         OneProgram, Return, RefsOk, OwnOk, StackOk;
    if acts != [] {
      match acts[0] {
        case DoGosub =>
          var q := Queue(r, c.m, Behind(r, c.idx));
          if q.Queued? && PlainCall(r, c) && Lands(r, ts, c) && Gosub(r, c).Went? {
            CallPushes(r, c, program, stack);
            CallOnToken(r, ts, c);
            MoreOnTokens(r, ts, stack, q.idx);
            RunsOnTokens(r, ts, Gosub(r, c).c, program, stack + [q.idx], acts[1..]);
          }
        case DoReturn =>
          if stack == [] {
            assert Return(r, c) == Went(c, true) by { NoReturn(r, c); }
            RunsOnTokens(r, ts, c, program, stack, acts[1..]);
          } else {
            ReturnPops(r, c, program, stack);
            MoreOnTokens(r, ts, stack, 0);
            assert Return(r, c).c.m == c.m by { ReturnStore(r, c); }
            RunsOnTokens(r, ts, Return(r, c).c, program, stack[..|stack| - 1], acts[1..]);
          }
        case Other(sc, t, name, value, idx) =>
          var out := Put(c.m, sc, t, name, value);
          if Allowed(acts[0], program) && (t == VarType.Label ==> PlacedText(r, ts, value)) && out.Stored?
             && OnToken(r, ts, idx) && idx <= |r.bytes| {
            OtherKeeps(c.m, acts[0], program, stack);
            OtherPlaced(r, ts, c.m, acts[0], program);
            RunsOnTokens(r, ts, Calls(out.m, c.nest, idx), program, stack, acts[1..]);
          }
      }
    }
  }

  lemma NoReturn(r: Reader, c: Calls)
    requires c.idx <= |r.bytes| && c.nest < 1
    ensures Return(r, c) == Went(c, true)
  {
  }

  lemma ReturnStore(r: Reader, c: Calls)
    requires c.idx <= |r.bytes|
    ensures Return(r, c).Went? && Return(r, c).c.m == c.m
  {
    hide Get, Start, ReturnName;
  }

  // ---------------------------------------------------------------- the method

  /** A put by the name of its type, whose refusal is no error. */
  method PutVariable(vars: Variables, sc: Scope, t: VarType, name: string, value: string) returns (alive: bool)
    requires vars.Valid()
    modifies vars
    ensures vars.Valid()
    ensures match Attempt(old(vars.store), sc, t, name, value)
            case None => !alive
            case Some(m) => alive && vars.store == m
  {
    hide Put;
    var end := vars.VariablePut(sc, t, name, value);
    alive := end == Done || end == Declined;
  }

  /** make_labels */
  method MakeLabelVariables(r: Reader, vars: Variables) returns (alive: bool, ok: bool)
    requires vars.Valid()
    modifies vars
    ensures vars.Valid()
    ensures match MakeLabels(r, old(vars.store), DEFAULT_PROGRAM, 0)
            case Ends => !alive
            case Made(m, good) => alive && ok == good && vars.store == m
  {
    hide Put, Fetch, Attempt, Decimal;
    var calls := new Subroutines(r, vars);
    var program := DEFAULT_PROGRAM;
    ghost var goal := MakeLabels(r, vars.store, program, 0);
    while true
      invariant calls.Valid() && calls.r == r && calls.vars == vars && fresh(calls)
      invariant goal == MakeLabels(r, vars.store, program, calls.idx)
      decreases |r.bytes| - calls.idx
    {
      var from := calls.idx;
      var t := calls.Next();
      if calls.idx == from {
        return true, true;
      } else if t.kind == Begin {
        t := calls.Next();
        if t.kind == EndOfLine {
          program := UNDEFINED_PROGRAM;
        } else if program == DEFAULT_PROGRAM {
          program := t.text;
        } else {
          return true, false;
        }
        alive := PutVariable(vars, Scope(program, ""), Sc, "", "DEFINED");
        if !alive {
          return false, false;
        }
        alive := PutVariable(vars, Scope(program, ""), Sc, "BEGIN", Decimal(calls.idx));
        if !alive {
          return false, false;
        }
      } else if t.kind == End {
        program := DEFAULT_PROGRAM;
      } else if t.kind == After || t.kind == Kind.Label {
        t := calls.Next();
        if t.kind != Value(Identifier) {
          return true, false;
        }
        alive := PutVariable(vars, Scope(program, ""), VarType.Label, t.text, Decimal(calls.idx));
        if !alive {
          return false, false;
        }
      }
    }
  }
}
