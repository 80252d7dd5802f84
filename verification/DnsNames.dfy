/**
 What the name shown to the authorizer says about the name asked for. The wire form is a list of labels
 of any bytes; the report joins their texts with dots.
 */
module DnsNames {
  import opened Options
  import opened Bytes
  import opened Text
  import opened Utf8
  import opened Dns

  const DOT: byte := 0x2E

  ghost predicate IsName(labels: seq<seq<byte>>) {
    forall i :: 0 <= i < |labels| ==> LabelOk(labels[i])
  }

  ghost predicate WellFormed(labels: seq<seq<byte>>) {
    forall i :: 0 <= i < |labels| ==> Strict(labels[i]).Some?
  }

  /** The name with dots, in bytes. */
  function Dotted(labels: seq<seq<byte>>): seq<byte> {
    Join(labels, DOT)
  }

  lemma DotText()
    ensures Encode(".") == [DOT]
  {
    assert "."[1..] == "";
    assert Encode("") == [];
  }

  /** The report of well-formed labels is the text of their dotted bytes. */
  lemma {:induction false} EncodedReport(labels: seq<seq<byte>>)
    requires WellFormed(labels)
    ensures Encode(Reported(labels)) == Dotted(labels)
    decreases |labels|
  {
    if labels != [] {
      assert Strict(labels[0]).Some?;
      LossyOfValid(labels[0]);
      EncodeDecode(labels[0]);
      if |labels| > 1 {
        EncodedReport(labels[1..]);
        assert Texts(labels)[1..] == Texts(labels[1..]);
        DotText();
        EncodeConcat(Lossy(labels[0]) + ".", Reported(labels[1..]));
        EncodeConcat(Lossy(labels[0]), ".");
      }
    }
  }

  /** Names of well-formed labels are reported alike exactly when their dotted bytes are the same. */
  lemma ReportedAlikeIff(a: seq<seq<byte>>, b: seq<seq<byte>>)
    requires WellFormed(a) && WellFormed(b)
    ensures Reported(a) == Reported(b) <==> Dotted(a) == Dotted(b)
  {
    EncodedReport(a);
    EncodedReport(b);
    DecodeEncode(Reported(a));
    DecodeEncode(Reported(b));
  }

  lemma MalformedIsReported(labels: seq<seq<byte>>)
    requires !WellFormed(labels)
    ensures REPLACEMENT in Reported(labels)
  {
    var i :| 0 <= i < |labels| && Strict(labels[i]).None?;
    MalformedShows(labels[i]);
    assert REPLACEMENT in Texts(labels)[i];
    JoinHas(Texts(labels), '.', REPLACEMENT);
  }

  /** The report tells the dotted bytes of `a` apart from those of every other name. */
  ghost predicate Identifies(a: seq<seq<byte>>) {
    forall b :: IsName(b) && Reported(b) == Reported(a) ==> Dotted(b) == Dotted(a)
  }

  /** A label that reads with a replacement character can be exchanged for another that reads alike. */
  lemma ReplacementConfuses(a: seq<seq<byte>>)
    requires IsName(a) && REPLACEMENT in Reported(a)
    ensures !Identifies(a)
  {
    JoinHas(Texts(a), '.', REPLACEMENT);
    var i :| 0 <= i < |a| && REPLACEMENT in Texts(a)[i];
    ReplacedIsAmbiguous(a[i]);
    var other :| ReadsLike(other, a[i]);
    Exchanged(a, i, other);
  }

  lemma Exchanged(a: seq<seq<byte>>, i: nat, other: seq<byte>)
    requires IsName(a) && i < |a| && ReadsLike(other, a[i])
    ensures IsName(a[i := other]) && Reported(a[i := other]) == Reported(a) && Dotted(a[i := other]) != Dotted(a)
  {
    assert LabelOk(a[i]);
    assert Texts(a[i := other]) == Texts(a);
    JoinTells(a, DOT, i, other);
  }

  /**
   For every name on the wire: the report identifies its dotted bytes exactly when no replacement
   character stands in it.
   */
  lemma IdentifiesIff(a: seq<seq<byte>>)
    requires IsName(a)
    ensures Identifies(a) <==> REPLACEMENT !in Reported(a)
  {
    if REPLACEMENT in Reported(a) {
      ReplacementConfuses(a);
    } else {
      forall b | IsName(b) && Reported(b) == Reported(a)
        ensures Dotted(b) == Dotted(a)
      {
        SameReportSameBytes(a, b);
      }
    }
  }

  lemma SameReportSameBytes(a: seq<seq<byte>>, b: seq<seq<byte>>)
    requires Reported(b) == Reported(a) && REPLACEMENT !in Reported(a)
    ensures Dotted(b) == Dotted(a)
  {
    if !WellFormed(a) {
      MalformedIsReported(a);
    }
    if !WellFormed(b) {
      MalformedIsReported(b);
    }
    ReportedAlikeIff(a, b);
  }

  /** No label has a dot inside. */
  ghost predicate DotFree(labels: seq<seq<byte>>) {
    forall i :: 0 <= i < |labels| ==> DOT !in labels[i]
  }

  /** Dotted bytes of labels without dots give the labels back. */
  lemma DottedTells(a: seq<seq<byte>>, b: seq<seq<byte>>)
    requires IsName(a) && IsName(b) && DotFree(a) && DotFree(b) && Dotted(a) == Dotted(b)
    ensures a == b
  {
    assert forall n: seq<seq<byte>> :: IsName(n) && n != [] ==> LabelOk(n[0]) && |Dotted(n)| >= |n[0]|;
    if a != [] && b != [] {
      SplitOfJoin(a, DOT);
      SplitOfJoin(b, DOT);
    }
  }

  /** Well-formed labels without dots are reported alike only when they are the same labels. */
  lemma NameIdentifiesLabels(a: seq<seq<byte>>, b: seq<seq<byte>>)
    requires IsName(a) && IsName(b) && WellFormed(a) && WellFormed(b) && DotFree(a) && DotFree(b)
    ensures Reported(a) == Reported(b) <==> a == b
  {
    ReportedAlikeIff(a, b);
    if Dotted(a) == Dotted(b) {
      DottedTells(a, b);
    }
  }

  /** A dot inside a label is reported like the boundary between two labels. */
  lemma DottedLabelsCollide(a: seq<byte>, b: seq<byte>)
    ensures [a + [DOT] + b] != [a, b] && Reported([a + [DOT] + b]) == Reported([a, b])
  {
    LossyAround(a, DOT, b);
    assert [DOT as char] == ".";
    assert Texts([a + [DOT] + b]) == [Lossy(a + [DOT] + b)];
    assert Texts([a, b]) == [Lossy(a), Lossy(b)];
    assert [Lossy(a), Lossy(b)][1..] == [Lossy(b)];
    assert Join([Lossy(b)], '.') == Lossy(b);
    assert Join([Lossy(a), Lossy(b)], '.') == Lossy(a) + ['.'] + Lossy(b);
  }

  /** Labels of different malformed bytes are reported alike, without any dot. */
  lemma MalformedLabelsCollide()
    ensures IsName([[0xFF]]) && IsName([[0xFE]]) && Dotted([[0xFF]]) != Dotted([[0xFE]])
    ensures Reported([[0xFF]]) == Reported([[0xFE]]) == [REPLACEMENT]
  {
    assert Lossy([0xFF]) == Lossy([0xFE]) == [REPLACEMENT];
    assert Texts([[0xFF]]) == [[REPLACEMENT]] == Texts([[0xFE]]);
  }
}
