/**
 Line structure of a staged file. The parser reads it in text mode, where CR, LF and CRLF each end a line;
 the byte scans count LF only.
 */
module Lines {
  import opened Common
  import opened Scan

  /** Length of the first text-mode line, terminator included. */
  function TextEnd(data: Bytes): (n: nat)
    requires data != []
    ensures 0 < n <= |data|
  {
    if data[0] == LF then 1
    else if data[0] == CR then if |data| > 1 && data[1] == LF then 2 else 1
    else if |data| == 1 then 1
    else 1 + TextEnd(data[1..])
  }

  /** The lines a text-mode stream yields. */
  function TextSplit(data: Bytes): seq<Bytes>
    decreases |data|
  {
    if data == [] then [] else [data[..TextEnd(data)]] + TextSplit(data[TextEnd(data)..])
  }

  /** Every CR is the first half of a CRLF pair. */
  predicate NoBareCR(data: Bytes) {
    forall i :: 0 <= i < |data| && data[i] == CR ==> i + 1 < |data| && data[i + 1] == LF
  }

  lemma {:induction false} TextEndConcat(a: Bytes, b: Bytes)
    requires a != [] && Complete(a)
    ensures TextEnd(a + b) == TextEnd(a)
    decreases |a|
  {
    if a[0] != LF && a[0] != CR {
      assert (a + b)[1..] == a[1..] + b;
      TextEndConcat(a[1..], b);
    }
  }

  /** Cutting just after a newline cuts the text-mode lines too. */
  lemma {:induction false} TextSplitConcat(a: Bytes, b: Bytes)
    requires Complete(a)
    ensures TextSplit(a + b) == TextSplit(a) + TextSplit(b)
    decreases |a|
  {
    if a == [] {
      assert a + b == b;
    } else {
      TextEndConcat(a, b);
      var n := TextEnd(a);
      assert (a + b)[..n] == a[..n] && (a + b)[n..] == a[n..] + b;
      TextSplitConcat(a[n..], b);
    }
  }

  /** The first line holds one newline, at its end, unless a bare CR or the end of the data closes it. */
  lemma {:induction false} TextEndCount(data: Bytes)
    requires data != []
    ensures var n := TextEnd(data);
            CountLF(data[..n]) == (if data[n - 1] == LF then 1 else 0)
            && (data[n - 1] == LF ==> NoBareCR(data[..n]))
            && (data[n - 1] != LF ==> n == |data| || (data[n - 1] == CR && data[n] != LF))
    decreases |data|
  {
    var n := TextEnd(data);
    assert CountLF([]) == 0 && CountLF([data[0]]) == (if data[0] == LF then 1 else 0) by {
      assert [data[0]][..0] == [];
    }
    if n == 1 {
      assert data[..1] == [data[0]];
    } else if data[0] == CR {
      assert data[..2] == [data[0]] + [LF];
      CountConcat([data[0]], [LF]);
      assert [LF][..0] == [];
    } else {
      TextEndCount(data[1..]);
      assert data[..n] == [data[0]] + data[1..][..n - 1];
      CountConcat([data[0]], data[1..][..n - 1]);
      forall i | 0 <= i < n && data[n - 1] == LF && data[i] == CR ensures i + 1 < n && data[i + 1] == LF {
        assert data[1..][..n - 1][i - 1] == CR;
      }
    }
  }

  lemma NoBareCRConcat(a: Bytes, b: Bytes)
    requires Complete(a)
    ensures NoBareCR(a + b) <==> NoBareCR(a) && NoBareCR(b)
  {
    if NoBareCR(a + b) {
      forall i | 0 <= i < |a| && a[i] == CR ensures i + 1 < |a| && a[i + 1] == LF {
        assert (a + b)[i] == CR;
        assert (a + b)[i + 1] == LF;
      }
      forall i | 0 <= i < |b| && b[i] == CR ensures i + 1 < |b| && b[i + 1] == LF {
        assert (a + b)[|a| + i] == CR;
        assert (a + b)[|a| + i + 1] == LF;
      }
    } else {
      var i :| 0 <= i < |a + b| && (a + b)[i] == CR && !(i + 1 < |a + b| && (a + b)[i + 1] == LF);
      assert i >= |a| ==> b[i - |a|] == CR;
    }
  }

  lemma {:induction false} TextAtLeastCount(data: Bytes)
    ensures |TextSplit(data)| >= CountLF(data)
    decreases |data|
  {
    if data != [] {
      var n := TextEnd(data);
      TextEndCount(data);
      TextAtLeastCount(data[n..]);
      CountSplit(data, n);
    }
  }

  /** Text-mode line numbers agree with LF counts exactly on files without a bare CR. */
  lemma {:induction false} TextLinesAreLFLines(data: Bytes)
    requires Complete(data)
    ensures |TextSplit(data)| == CountLF(data) <==> NoBareCR(data)
    decreases |data|
  {
    if data != [] {
      var n := TextEnd(data);
      TextEndCount(data);
      CountSplit(data, n);
      assert data == data[..n] + data[n..];
      if data[n - 1] == LF {
        TextLinesAreLFLines(data[n..]);
        NoBareCRConcat(data[..n], data[n..]);
      } else {
        assert n < |data| && data[n - 1] == CR;
        TextAtLeastCount(data[n..]);
      }
    }
  }

  /** A line start cuts a file into its first k LF lines and the rest, if no bare CR precedes the cut. */
  lemma LineStartSplits(data: Bytes, k: nat, n: nat)
    requires LineStart(data, k, n) && NoBareCR(data[..n])
    ensures TextSplit(data) == TextSplit(data[..n]) + TextSplit(data[n..])
    ensures |TextSplit(data[..n])| == k
  {
    assert data == data[..n] + data[n..];
    TextSplitConcat(data[..n], data[n..]);
    TextLinesAreLFLines(data[..n]);
  }

  lemma NoBareCRBefore(data: Bytes, k: nat, n: nat)
    requires LineStart(data, k, n) && NoBareCR(data)
    ensures NoBareCR(data[..n])
  {
    assert data == data[..n] + data[n..];
    NoBareCRConcat(data[..n], data[n..]);
  }
}
