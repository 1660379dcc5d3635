/** Items as trees and their one encoding (section 9 of SEMI E5). */
module SecsTree {
  import opened Bytes
  import opened SecsItems

  datatype Node = Leaf(f: Format, bytes: seq<byte>) | Branch(children: seq<Node>)

  function Encoded(n: Node): seq<byte>
    decreases n
  {
    match n
    case Leaf(f, bytes) => Header(Code(f), |bytes|) + bytes
    case Branch(children) => Header(LIST, |children|) + EncodedAll(children)
  }

  function EncodedAll(s: seq<Node>): seq<byte>
    decreases s
  {
    if s == [] then [] else Encoded(s[0]) + EncodedAll(s[1..])
  }

  lemma {:induction false} EncodedAppend(a: seq<Node>, b: seq<Node>)
    ensures EncodedAll(a + b) == EncodedAll(a) + EncodedAll(b)
    decreases |a|
  {
    hide Encoded;
    if a == [] {
      assert a + b == b;
    } else {
      assert (a + b)[0] == a[0] && (a + b)[1..] == a[1..] + b;
      EncodedAppend(a[1..], b);
    }
  }

  lemma EncodedOne(n: Node)
    ensures EncodedAll([n]) == Encoded(n)
  {
    assert [n][1..] == [];
    assert EncodedAll([n][1..]) == [];
  }
}
