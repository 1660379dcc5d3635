/** The stored form of a program (source/program.c:532-590 and the writing of tokens in `read_it`,
    source/program.c:817-1074): a type byte, and behind it nothing, a text up to a null, or a length
    and a text. */
module ProgramText {
  import opened Tokens
  import opened Programs
  import opened Bytes

  datatype Layout = Bare | Terminated | Counted

  function LayoutOf(k: Kind): Layout {
    if k == Value(Number) || k == Value(Constant) || k == Value(Identifier) || k == Value(Variable) || k == LineNumber
    then Terminated
    else if k == Value(Str) then Counted
    else Bare
  }

  /** The numbers of the token types. */
  datatype Codes = Codes(of: Kind -> byte, kind: byte -> Kind)

  /** A token that can be stored: its type has a number of its own, a text of characters of one byte
      only where there is room for one, and no null in a text that a null ends. */
  predicate Storable(c: Codes, t: Token) {
    && c.kind(c.of(t.kind)) == t.kind
    && (forall k :: 0 <= k < |t.text| ==> t.text[k] as int < 256)
    && match LayoutOf(t.kind)
       case Bare => t.text == ""
       case Terminated => forall k :: 0 <= k < |t.text| ==> t.text[k] as int != 0
       case Counted => |t.text| < 0x1_0000_0000
  }

  predicate AllStorable(c: Codes, ts: seq<Token>) { forall k :: 0 <= k < |ts| ==> Storable(c, ts[k]) }

  /** A character is a byte. */
  function ByteText(s: string): (b: seq<byte>)
    ensures |b| == |s|
  {
    seq(|s|, k requires 0 <= k < |s| => s[k] as int % 256)
  }

  function CharText(b: seq<byte>): (s: string)
    ensures |s| == |b|
  {
    seq(|b|, k requires 0 <= k < |b| => b[k] as char)
  }

  /** The length is copied as the machine stores it, its lowest byte first. */
  function LittleEndian(n: nat): (s: seq<byte>)
    ensures |s| == 4
  {
    var s := BigEndian(n, 4);
    [s[3], s[2], s[1], s[0]]
  }

  function LengthOf(s: seq<byte>): nat
    requires |s| == 4
  {
    Bytes.Number([s[3], s[2], s[1], s[0]])
  }

  function Stored(c: Codes, t: Token): (s: seq<byte>)
    requires Storable(c, t)
    ensures s != []
  {
    match LayoutOf(t.kind)
    case Bare => [c.of(t.kind)]
    case Terminated => [c.of(t.kind)] + (ByteText(t.text) + [0])
    case Counted => [c.of(t.kind)] + (LittleEndian(|t.text|) + ByteText(t.text))
  }

  function StoredAll(c: Codes, ts: seq<Token>): seq<byte>
    requires AllStorable(c, ts)
  {
    if ts == [] then [] else Stored(c, ts[0]) + StoredAll(c, ts[1..])
  }

  // ---------------------------------------------------------------- reading

  /** The first null from `i` on, or the end. */
  function Null(b: seq<byte>, i: nat): (n: nat)
    requires i <= |b|
    ensures i <= n <= |b| && (n < |b| ==> b[n] == 0) && forall k :: i <= k < n ==> b[k] != 0
    decreases |b| - i
  {
    if i == |b| || b[i] == 0 then i else Null(b, i + 1)
  }

  /** decode_program_token: the token at an offset and the bytes it takes; none if the text runs over
      the end. */
  function Decode(c: Codes, b: seq<byte>, i: nat): (r: Option<(Token, nat)>)
    requires i < |b|
    ensures r.Some? ==> 0 < r.value.1 <= |b| - i
  {
    var k := c.kind(b[i]);
    match LayoutOf(k)
    case Bare => Some((Token(k, ""), 1))
    case Terminated =>
      var n := Null(b, i + 1);
      if n == |b| then None else Some((Token(k, CharText(b[i + 1..n])), n + 1 - i))
    case Counted =>
      if i + 5 > |b| then None
      else
        var n := LengthOf(b[i + 1..i + 5]);
        if i + 5 + n > |b| then None else Some((Token(k, CharText(b[i + 5..i + 5 + n])), 5 + n))
  }

  method DecodeToken(c: Codes, b: seq<byte>, i: nat) returns (ok: bool, t: Token, num: nat)
    requires i < |b|
    ensures Decode(c, b, i) == if ok then Some((t, num)) else None
  {
    var k := c.kind(b[i]);
    t, num, ok := Token(k, ""), 1, true;
    match LayoutOf(k) {
      case Bare =>
      case Terminated =>
        var n := i + 1;
        while n < |b| && b[n] != 0
          invariant i + 1 <= n <= |b| && Null(b, i + 1) == Null(b, n)
        {
          n := n + 1;
        }
        if n == |b| {
          return false, t, num;
        }
        t, num := Token(k, CharText(b[i + 1..n])), n + 1 - i;
      case Counted =>
        if i + 5 > |b| {
          return false, t, num;
        }
        var n := LengthOf(b[i + 1..i + 5]);
        if i + 5 + n > |b| {
          return false, t, num;
        }
        t, num := Token(k, CharText(b[i + 5..i + 5 + n])), 5 + n;
    }
  }

  // ---------------------------------------------------------------- a token and what follows

  lemma TextBack(s: string)
    requires forall k :: 0 <= k < |s| ==> s[k] as int < 256
    ensures CharText(ByteText(s)) == s
  {
  }

  lemma LengthBack(n: nat)
    requires n < 0x1_0000_0000
    ensures LengthOf(LittleEndian(n)) == n
  {
    var s := BigEndian(n, 4);
    assert [s[0], s[1], s[2], s[3]] == s;
    assert Power(256, 2) == 0x10000;
    assert Power(256, 4) == 0x1_0000_0000;
    NumberOf(n, 4);
  }

  lemma {:induction false} NullBehind(b: seq<byte>, i: nat, n: nat)
    requires i <= n < |b| && b[n] == 0 && forall k :: i <= k < n ==> b[k] != 0
    ensures Null(b, i) == n
    decreases n - i
  {
    if i < n { NullBehind(b, i + 1, n); }
  }

  lemma Slice(b: seq<byte>, i: nat, s: seq<byte>, f: nat, t: nat)
    requires i + |s| <= |b| && b[i..i + |s|] == s && f <= t <= |s|
    ensures b[i + f..i + t] == s[f..t]
  {
    forall k | 0 <= k < t - f ensures b[i + f..i + t][k] == s[f..t][k] {
      assert b[i..i + |s|][f + k] == s[f + k];
    }
  }

  lemma TerminatedBack(c: Codes, b: seq<byte>, i: nat, t: Token)
    requires Storable(c, t) && LayoutOf(t.kind) == Terminated && i + |Stored(c, t)| <= |b|
    requires b[i..i + |Stored(c, t)|] == Stored(c, t)
    ensures Decode(c, b, i) == Some((t, |Stored(c, t)|))
  {
    var s, n := Stored(c, t), i + 1 + |t.text|;
    var m := |t.text|;
    TextBack(t.text);
    Slice(b, i, s, 0, 1);
    Slice(b, i, s, 1, 1 + m);
    Slice(b, i, s, 1 + m, 2 + m);
    assert s[..1] == [c.of(t.kind)] && s[1..1 + m] == ByteText(t.text) && s[1 + m..2 + m] == [0];
    assert b[i] == b[i..i + 1][0] && b[n] == b[n..n + 1][0];
    assert forall k :: i + 1 <= k < n ==> b[k] == b[i + 1..n][k - i - 1];
    NullBehind(b, i + 1, n);
  }

  lemma CountedBack(c: Codes, b: seq<byte>, i: nat, t: Token)
    requires Storable(c, t) && LayoutOf(t.kind) == Counted && i + |Stored(c, t)| <= |b|
    requires b[i..i + |Stored(c, t)|] == Stored(c, t)
    ensures Decode(c, b, i) == Some((t, |Stored(c, t)|))
  {
    hide LittleEndian, LengthOf;
    var s, n := Stored(c, t), |t.text|;
    TextBack(t.text);
    LengthBack(n);
    Slice(b, i, s, 0, 1);
    Slice(b, i, s, 1, 5);
    Slice(b, i, s, 5, 5 + n);
    assert s[..1] == [c.of(t.kind)] && s[1..5] == LittleEndian(n) && s[5..5 + n] == ByteText(t.text);
    assert b[i] == b[i..i + 1][0];
  }

  /** What is read where a token was stored is the token. */
  lemma DecodesStored(c: Codes, pre: seq<byte>, t: Token, post: seq<byte>)
    requires Storable(c, t)
    ensures Decode(c, pre + Stored(c, t) + post, |pre|) == Some((t, |Stored(c, t)|))
  {
    hide Stored, Decode, Storable;
    var b, i, s := pre + Stored(c, t) + post, |pre|, Stored(c, t);
    assert b[i..i + |s|] == s;
    match LayoutOf(t.kind) {
      case Bare => BareBack(c, b, i, t);
      case Terminated => TerminatedBack(c, b, i, t);
      case Counted => CountedBack(c, b, i, t);
    }
  }

  lemma BareBack(c: Codes, b: seq<byte>, i: nat, t: Token)
    requires Storable(c, t) && LayoutOf(t.kind) == Bare && i + |Stored(c, t)| <= |b|
    requires b[i..i + |Stored(c, t)|] == Stored(c, t)
    ensures Decode(c, b, i) == Some((t, |Stored(c, t)|))
  {
    assert b[i] == b[i..i + 1][0];
  }

  // ---------------------------------------------------------------- boundaries

  /** The offset of the `k`-th token. */
  function Offset(c: Codes, ts: seq<Token>, k: nat): nat
    requires AllStorable(c, ts) && k <= |ts|
  {
    |StoredAll(c, ts[..k])|
  }

  lemma {:induction false} StoredAppend(c: Codes, a: seq<Token>, b: seq<Token>)
    requires AllStorable(c, a) && AllStorable(c, b)
    ensures AllStorable(c, a + b) && StoredAll(c, a + b) == StoredAll(c, a) + StoredAll(c, b)
    decreases |a|
  {
    hide Stored, Storable;
    StorableBoth(c, a, b);
    if a == [] {
      assert a + b == b;
    } else {
      assert (a + b)[0] == a[0] && (a + b)[1..] == a[1..] + b;
      StoredAppend(c, a[1..], b);
      Assoc(Stored(c, a[0]), StoredAll(c, a[1..]), StoredAll(c, b));
    }
  }

  lemma StorableBoth(c: Codes, a: seq<Token>, b: seq<Token>)
    requires AllStorable(c, a) && AllStorable(c, b)
    ensures AllStorable(c, a + b)
  {
    hide Storable;
  }

  lemma Assoc(a: seq<byte>, b: seq<byte>, c: seq<byte>)
    ensures (a + b) + c == a + (b + c)
  {
  }

  lemma OneMore(c: Codes, ts: seq<Token>, t: Token, k: nat)
    requires AllStorable(c, ts) && Storable(c, t) && k <= |ts|
    ensures AllStorable(c, ts + [t]) && StoredAll(c, ts + [t]) == StoredAll(c, ts) + Stored(c, t)
    ensures Offset(c, ts + [t], k) == Offset(c, ts, k)
  {
    hide Stored, Storable, StoredAll;
    StoredAppend(c, ts, [t]);
    OneStored(c, t);
    assert (ts + [t])[..k] == ts[..k];
  }

  lemma StoredLayout(c: Codes, t: Token)
    requires Storable(c, t)
    ensures (forall k :: 0 <= k < |t.text| ==> t.text[k] as int < 256)
    ensures Stored(c, t) == match LayoutOf(t.kind)
                            case Bare => [c.of(t.kind)]
                            case Terminated => [c.of(t.kind)] + (ByteText(t.text) + [0])
                            case Counted => [c.of(t.kind)] + (LittleEndian(|t.text|) + ByteText(t.text))
  {
    hide ByteText, LittleEndian;
  }

  /** Which tokens carry a text, and what they take: strings any characters, and four bytes for their
      number; numbers, names, constants, variables and line numbers a null behind them; all others
      nothing. */
  lemma StoredSizes(c: Codes, t: Token)
    requires Storable(c, t)
    ensures t.kind == Value(Str) ==> Stored(c, t) == [c.of(t.kind)] + LittleEndian(|t.text|) + ByteText(t.text)
    ensures t.kind == LineNumber || (t.kind.Value? && t.kind.v != Str) ==>
              Stored(c, t) == [c.of(t.kind)] + ByteText(t.text) + [0]
    ensures t.kind != LineNumber && !t.kind.Value? ==> Stored(c, t) == [c.of(t.kind)] && t.text == ""
  {
    hide LittleEndian, ByteText;
  }

  /** Reading at the offset of a token gives the token and leads to the offset of the next: from 0 on
      exactly the tokens written are read, and no other offset is ever reached. */
  lemma ReadsToken(c: Codes, ts: seq<Token>, k: nat)
    requires AllStorable(c, ts) && k < |ts|
    ensures Offset(c, ts, k) < |StoredAll(c, ts)|
    ensures Decode(c, StoredAll(c, ts), Offset(c, ts, k)) == Some((ts[k], Offset(c, ts, k + 1) - Offset(c, ts, k)))
    ensures Offset(c, ts, k) < Offset(c, ts, k + 1)
  {
    hide Stored, Storable, Decode, StoredAll, AllStorable;
    StoredAround(c, ts, k);
    DecodesStored(c, StoredAll(c, ts[..k]), ts[k], StoredAll(c, ts[k + 1..]));
  }

  lemma StoredAround(c: Codes, ts: seq<Token>, k: nat)
    requires AllStorable(c, ts) && k < |ts|
    ensures AllStorable(c, ts[..k]) && Storable(c, ts[k]) && AllStorable(c, ts[k + 1..]) && AllStorable(c, ts[..k + 1])
    ensures StoredAll(c, ts) == StoredAll(c, ts[..k]) + Stored(c, ts[k]) + StoredAll(c, ts[k + 1..])
    ensures StoredAll(c, ts[..k + 1]) == StoredAll(c, ts[..k]) + Stored(c, ts[k])
  {
    hide Stored, Storable, StoredAll;
    var a, t, b := ts[..k], ts[k], ts[k + 1..];
    StoredAppend(c, ts[..k + 1], b);
    assert ts[..k + 1] + b == ts;
    StoredAppend(c, a, [t]);
    assert a + [t] == ts[..k + 1];
    OneStored(c, t);
  }

  lemma OneStored(c: Codes, t: Token)
    requires Storable(c, t)
    ensures StoredAll(c, [t]) == Stored(c, t)
  {
    hide Stored;
    assert [t][1..] == [];
    assert StoredAll(c, [t][1..]) == [];
  }

  lemma OffsetEnds(c: Codes, ts: seq<Token>)
    requires AllStorable(c, ts)
    ensures Offset(c, ts, 0) == 0 && Offset(c, ts, |ts|) == |StoredAll(c, ts)|
  {
    assert ts[..|ts|] == ts && ts[..0] == [];
  }

  lemma {:induction false} OffsetsIncrease(c: Codes, ts: seq<Token>, j: nat, k: nat)
    requires AllStorable(c, ts) && j < k <= |ts|
    ensures Offset(c, ts, j) < Offset(c, ts, k)
    decreases k - j
  {
    hide Offset, Decode, StoredAll, AllStorable;
    ReadsToken(c, ts, j);
    if j + 1 < k { OffsetsIncrease(c, ts, j + 1, k); }
  }

  /** The tokens read one behind the other from an offset to the end. */
  function DecodeAll(c: Codes, b: seq<byte>, i: nat): Option<seq<Token>>
    requires i <= |b|
    decreases |b| - i
  {
    if i == |b| then Some([])
    else
      match Decode(c, b, i)
      case None => None
      case Some((t, n)) =>
        match DecodeAll(c, b, i + n)
        case None => None
        case Some(more) => Some([t] + more)
  }

  lemma {:induction false} RoundTrip(c: Codes, ts: seq<Token>, k: nat)
    requires AllStorable(c, ts) && k <= |ts|
    ensures Offset(c, ts, k) <= |StoredAll(c, ts)|
    ensures DecodeAll(c, StoredAll(c, ts), Offset(c, ts, k)) == Some(ts[k..])
    decreases |ts| - k
  {
    hide Offset, Decode, DecodeAll, AllStorable, StoredAll;
    OffsetEnds(c, ts);
    if k < |ts| {
      ReadsToken(c, ts, k);
      RoundTrip(c, ts, k + 1);
      DecodesFirst(c, StoredAll(c, ts), Offset(c, ts, k), ts[k], Offset(c, ts, k + 1), ts[k + 1..]);
      assert ts[k..] == [ts[k]] + ts[k + 1..];
    } else {
      DecodesNone(c, StoredAll(c, ts));
      assert ts[k..] == [];
    }
  }

  lemma DecodesNone(c: Codes, b: seq<byte>)
    ensures DecodeAll(c, b, |b|) == Some([])
  {
  }

  lemma DecodesFirst(c: Codes, b: seq<byte>, i: nat, t: Token, j: nat, more: seq<Token>)
    requires i < j <= |b| && Decode(c, b, i) == Some((t, j - i)) && DecodeAll(c, b, j) == Some(more)
    ensures DecodeAll(c, b, i) == Some([t] + more)
  {
    hide Decode;
  }

  /** The index is that of a token, or the end of the program. */
  ghost predicate Boundary(c: Codes, ts: seq<Token>, i: nat)
    requires AllStorable(c, ts)
  {
    exists k: nat :: k <= |ts| && i == Offset(c, ts, k)
  }

  lemma BoundaryAt(c: Codes, ts: seq<Token>, k: nat)
    requires AllStorable(c, ts) && k <= |ts|
    ensures Boundary(c, ts, Offset(c, ts, k))
  {
    hide Offset;
  }

  // ---------------------------------------------------------------- writing a program

  /** The null token marks the end and is never stored. */
  predicate NoNull(ts: seq<Token>) { forall k :: 0 <= k < |ts| ==> ts[k].kind != NullToken }

  /** The buffer that `read_it` fills: source/program.c:817-1074. */
  class ProgramBuffer {
    const codes: Codes
    var bytes: seq<byte>
    ghost var tokens: seq<Token>

    ghost predicate Valid()
      reads this
    {
      AllStorable(codes, tokens) && NoNull(tokens) && bytes == StoredAll(codes, tokens)
    }

    constructor (codes: Codes)
      ensures Valid() && tokens == [] && this.codes == codes
    {
      this.codes, bytes, tokens := codes, [], [];
    }

    /** A token written; no offset of an earlier one moves. */
    method Save(t: Token)
      requires Valid() && Storable(codes, t) && t.kind != NullToken
      modifies this
      ensures Valid() && tokens == old(tokens) + [t]
      ensures forall k: nat :: k <= |old(tokens)| ==> Offset(codes, tokens, k) == Offset(codes, old(tokens), k)
    {
      hide StoredAll, AllStorable, Storable, Offset;
      forall k: nat | k <= |tokens|
        ensures AllStorable(codes, tokens + [t]) && Offset(codes, tokens + [t], k) == Offset(codes, tokens, k)
      {
        OneMore(codes, tokens, t, k);
      }
      OneMore(codes, tokens, t, 0);
      StoredLayout(codes, t);
      match LayoutOf(t.kind) {
        case Bare => bytes := bytes + [codes.of(t.kind)];
        case Terminated => bytes := bytes + ([codes.of(t.kind)] + (ByteText(t.text) + [0]));
        case Counted => bytes := bytes + ([codes.of(t.kind)] + (LittleEndian(|t.text|) + ByteText(t.text)));
      }
      tokens := tokens + [t];
    }
  }

  // ---------------------------------------------------------------- the stored program and its cursor

  /** The cursor on the bytes: source/program.c:492-590. `at` and `savedAt` count tokens. */
  class StoredProgram {
    const codes: Codes
    const bytes: seq<byte>
    const resolve: (string, Env) -> string
    ghost const tokens: seq<Token>
    var idx: nat
    var saved: nat
    ghost var at: nat
    ghost var savedAt: nat

    /** Both indices are offsets of tokens, or the end. */
    ghost predicate Valid()
      reads this
    {
      && AllStorable(codes, tokens) && NoNull(tokens) && bytes == StoredAll(codes, tokens)
      && at <= |tokens| && idx == Offset(codes, tokens, at)
      && savedAt <= |tokens| && saved == Offset(codes, tokens, savedAt)
    }

    constructor (codes: Codes, bytes: seq<byte>, ghost tokens: seq<Token>, resolve: (string, Env) -> string)
      requires AllStorable(codes, tokens) && NoNull(tokens) && bytes == StoredAll(codes, tokens)
      ensures Valid() && at == 0 && this.codes == codes && this.bytes == bytes
      ensures this.tokens == tokens && this.resolve == resolve
    {
      this.codes, this.bytes, this.resolve, idx, saved := codes, bytes, resolve, 0, 0;
      this.tokens, at, savedAt := tokens, 0, 0;
      OffsetEnds(codes, tokens);
    }

    method GetTokenNoEval() returns (t: Token)
      requires Valid()
      modifies this
      ensures Valid() && t == RawAt(tokens, old(at)) && at == Past(tokens, old(at)) && savedAt == old(at)
      ensures t.kind == NullToken <==> old(at) == |tokens|
    {
      hide Decode, Stored, Offset, AllStorable;
      saved, savedAt := idx, at;
      OffsetEnds(codes, tokens);
      if at < |tokens| { ReadsToken(codes, tokens, at); }
      if idx >= |bytes| {
        t := NULL_TOKEN;
      } else {
        var ok, num;
        ok, t, num := DecodeToken(codes, bytes, idx);
        idx, at := idx + num, at + 1;
      }
    }

    /** A `$` variable is replaced by its value. */
    method GetToken(env: Env) returns (t: Token)
      requires Valid()
      modifies this
      ensures Valid() && t == TokenAt(resolve, tokens, env, old(at)) && at == Past(tokens, old(at))
              && savedAt == old(at)
      ensures t.kind == NullToken <==> old(at) == |tokens|
    {
      hide Offset, AllStorable;
      t := GetTokenNoEval();
      if t.kind == Value(Variable) {
        t := Token(Value(Variable), resolve(t.text, env));
      }
    }

    method PutToken()
      requires Valid()
      modifies this`idx, this`at
      ensures Valid() && at == savedAt
    {
      idx, at := saved, savedAt;
    }

    /** An index taken earlier, when the cursor stood at token `k`. */
    method SetIdx(i: nat, ghost k: nat)
      requires Valid() && k <= |tokens| && i == Offset(codes, tokens, k)
      modifies this`idx, this`at
      ensures Valid() && at == k
    {
      idx, at := i, k;
    }
  }
}
