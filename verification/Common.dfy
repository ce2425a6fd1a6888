/** Small types shared by the models. */
module Common {

  datatype Option<+T> = None | Some(value: T) {
    function GetOr(default: T): T {
      match this
      case Some(v) => v
      case None => default
    }
  }

  const UPPER_CASE := "ABCDEFGHIJKLMNOPQRSTUVWXYZ"
  const LOWER_CASE := "abcdefghijklmnopqrstuvwxyz"
  const NUMERALS := "0123456789"

  /** A row of consecutive characters. */
  predicate Row(s: string, first: char) {
    forall i | 0 <= i < |s| :: s[i] as int == first as int + i
  }

  lemma Rows()
    ensures Row(UPPER_CASE, 'A') && Row(LOWER_CASE, 'a') && Row(NUMERALS, '0')
    ensures |UPPER_CASE| == |LOWER_CASE| == 26 && |NUMERALS| == 10
  {
  }

  lemma InRow(s: string, first: char, c: char)
    requires Row(s, first)
    ensures c in s <==> first as int <= c as int < first as int + |s|
  {
    if first as int <= c as int < first as int + |s| {
      assert s[c as int - first as int] == c;
    }
  }

  /** Whether the modelled process is still running.  `:-` on a `Died` value ends
      the calling method at that point, as a killed process or an uncaught
      exception ends the script. */
  datatype Life = Alive | Died {
    predicate IsFailure() { Died? }

    function PropagateFailure(): Life
      requires Died?
    {
      Died
    }
  }
}
