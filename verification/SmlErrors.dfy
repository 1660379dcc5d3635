/** Message texts the encoder rejects (source/secs_encode_sml.c:165-880): an item with a word that names
    no format, or with data that cannot be converted. */
module SmlErrors {
  import opened Tokens
  import opened Programs
  import opened Flow
  import opened SecsItems
  import opened SecsTree
  import opened SmlEncode
  import opened SmlTree
  import opened SmlPasses
  import opened SmlTheorem

  lemma DataStepFails(l: Lang, fl: Floats, p: seq<Token>, a: Env, f: Format, i: nat, text: string, j: nat)
    requires i < |p| && RawAt(p, i).kind != Binary(GreaterThan) && DataText(l, p, a, f, i) == (text, j) && i < j <= |p|
    requires var d := ItemData(l, fl, p, a, f, j); d.Data? && (Convert(fl, f, text).ok ==> !d.ok)
    ensures var d := ItemData(l, fl, p, a, f, i); d.Data? && !d.ok
  {
    hide Convert, DataText;
  }

  /** Data of which a text cannot be converted are read to their end, or to that text. */
  lemma {:induction false} DataFails(l: Lang, fl: Floats, p: seq<Token>, a: Env, env: Env, x: set<string>, f: Format,
                                     data: seq<Token>, i: nat)
    requires DataTokens(data) && At(p, i, data + [Angle(GreaterThan)])
    requires Agree(a, env, x) && forall k :: 0 <= k < |data| ==> Fixed(l, data[k], x)
    requires ItemValue(fl, f, Texts(l, f, data, env)).None?
    ensures i <= |p| && var d := ItemData(l, fl, p, a, f, i); d.Data? && !d.ok
    decreases |data|
  {
    hide Agree, Convert, At, Texts, DataText, ItemData, Fixed;
    AtSplit(p, i, data, [Angle(GreaterThan)]);
    if data == [] {
      NoData(l, fl, p, a, env, f, i);
    } else {
      TextRead(l, p, a, env, x, f, data, i);
      var n := Taken(f, data);
      var texts, rest := Texts(l, f, data, env), data[n..];
      assert data + [Angle(GreaterThan)] == data[..n] + (rest + [Angle(GreaterThan)]);
      AtSplit(p, i, data[..n], rest + [Angle(GreaterThan)]);
      AtBound(p, i + n, rest + [Angle(GreaterThan)]);
      assert rest != [] ==> rest[|rest| - 1] == data[|data| - 1];
      assert texts[1..] == Texts(l, f, rest, env);
      if ItemValue(fl, f, texts[1..]).None? {
        DataFails(l, fl, p, a, env, x, f, rest, i + n);
      } else {
        DataRead(l, fl, p, a, env, x, f, rest, i + n);
      }
      DataStepFails(l, fl, p, a, f, i, texts[0], i + n);
    }
  }

  /** An item that stands for nothing. */
  ghost predicate Bad(l: Lang, fl: Floats, env: Env, word: string, data: seq<Token>) {
    match WordOf(word)
    case ItemWord(f) => ItemValue(fl, f, Texts(l, f, data, env)).None?
    case ListWord => false
    case _ => true
  }

  lemma WordRejected(l: Lang, fl: Floats, p: seq<Token>, vars: set<string>, env: Env, e: Enc, word: string,
                     data: seq<Token>)
    requires InRange(p, e) && e.mode.Emitting? && e.st.idx < |p| && p[e.st.idx] == Name(word)
    requires At(p, e.st.idx + 1, data + [Angle(GreaterThan)]) && DataTokens(data) && Agree(e.st.env, env, vars)
             && forall k :: 0 <= k < |data| ==> Fixed(l, data[k], vars)
    requires Bad(l, fl, env, word, data)
    ensures var c := EncTurn(l, fl, p, e); c.Stopped? && c.how == Rejected && e.out <= c.e.out
  {
    hide Agree, Fixed, Texts, ItemValue, ItemData, Header, WordOf, Command, At;
    if WordOf(word).ItemWord? {
      DataFails(l, fl, p, e.st.env, env, vars, WordOf(word).f, data, e.st.idx + 1);
    }
  }

  /** Behind any text that means something an item that means nothing ends the encoding with an error;
      what was encoded before it stands in the buffer. */
  lemma BadItemRejected(l: Lang, fl: Floats, p: seq<Token>, k: nat, vars: set<string>, es: Forest, st: St,
                        nodes: seq<Node>, word: string, data: seq<Token>) returns (n: nat)
    requires At(p, st.idx, ForestToks(es) + ElementToks(Element.Item(word, data)))
    requires Scoped(l, vars, {}, es) && Elements(l, fl, k, es, st.env) == Some(nodes)
    requires DataTokens(data) && Bad(l, fl, st.env, word, data)
             && forall k :: 0 <= k < |data| ==> Fixed(l, data[k], vars)
    ensures st.idx <= |p|
    ensures var c := EncRun(l, fl, p, n, Working(Enc(st, [], Emitting)));
            c.Stopped? && c.how == Rejected && EncodedAll(nodes) <= c.e.out
  {
    hide At, Agree, Elements, Scoped, EncodedAll, Levels, ForestToks, EncTurn, EncRun, Bad, Fixed;
    var item := ElementToks(Element.Item(word, data));
    AtSplit(p, st.idx, ForestToks(es), item);
    AtBound(p, st.idx, ForestToks(es));
    var e, i := Enc(st, [], Emitting), st.idx + |ForestToks(es)|;
    assert Agree(st.env, st.env, vars - {}) by { AgreeSelf(st.env, vars - {}); }
    Angled(p, i, word, data);
    PlainBehind(p, i);
    var e1 := ForestPasses(l, fl, p, k, vars, {}, es, st.env, e, nodes);
    assert vars - {} == vars;
    var e2 := e1.(st := e1.st.(idx := i + 1));
    Skips(l, fl, p, e1);
    GetsThen(l, fl, p, e, e1, e2);
    WordRejected(l, fl, p, vars, st.env, e2, word, data);
    var m: nat :| EncRun(l, fl, p, m, Working(e)) == Working(e2);
    EncRunAdd(l, fl, p, m, 1, Working(e));
    OneTurn(l, fl, p, e2);
    n := m + 1;
    assert [] + EncodedAll(nodes) == EncodedAll(nodes);
  }

  lemma PlainBehind(p: seq<Token>, i: nat)
    requires i < |p| && p[i] == Angle(LessThan)
    ensures RawAt(p, i).kind == Binary(LessThan)
  {
  }

  lemma OneTurn(l: Lang, fl: Floats, p: seq<Token>, e: Enc)
    requires InRange(p, e)
    ensures EncRun(l, fl, p, 1, Working(e)) == EncTurn(l, fl, p, e)
  {
    hide EncTurn;
    var c := EncTurn(l, fl, p, e);
    assert EncRun(l, fl, p, 0, c) == c;
  }
}
