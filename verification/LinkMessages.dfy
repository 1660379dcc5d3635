/** From message to message over the link: split, contention, transfer and reassembly together. */
module LinkMessages {
  import opened Bytes
  import opened LinkProtocol
  import opened LinkLiveness
  import opened Blocks

  lemma WholeMessage(h: Head, msg: seq<byte>)
    requires |msg| <= 7_995_148
    ensures Messages(Split(h, msg, 1))
    ensures var r := Gather(Nothing(), Split(h, msg, 1)); r.Whole? && r.msg == msg
  {
    hide Gather, MakeBlock;
    SplitNumbers(h, msg, Pieces(msg) - 1);
    SizeDecides(h, msg, |msg|);
    assert msg[..|msg|] == msg;
  }

  /** Two peers, `rbit` set on one side, each with a message for the other: however their moves
      interleave, and whether or not both begin at once, a run goes on until each side has put the
      message of the other together. */
  lemma MessagesArrive(ra: bool, ha: Head, ma: seq<byte>, hb: Head, mb: seq<byte>, ms: seq<Move>, l: Link)
    requires |ma| <= 7_995_148 && |mb| <= 7_995_148
    requires Reaches(Begin(ra, !ra, Split(ha, ma, 1), Split(hb, mb, 1)), ms, l)
    ensures NoMove(l) ==>
              && Gather(Nothing(), l.b.got).Whole? && Gather(Nothing(), l.b.got).msg == ma
              && Gather(Nothing(), l.a.got).Whole? && Gather(Nothing(), l.a.got).msg == mb
  {
    hide Reaches, NoMove, Gather, Split, Messages;
    WholeMessage(ha, ma);
    WholeMessage(hb, mb);
    RunsDeliver(ra, !ra, Split(ha, ma, 1), Split(hb, mb, 1), ms, l);
  }
}
