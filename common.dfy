// Vocabulary shared by every module of the model: optional values and the
// decimal rendering that the proxy uses for request ids, party ids and
// test request ids (`fmt::format("{}", n)` of an unsigned integer).

module Common {

  datatype Option<T> = None | Some(value: T)

  /** One octet of a network buffer. */
  newtype byte = x: int | 0 <= x < 256

  /** The digit character for `d`. */
  function DigitChar(d: nat): (c: char)
    requires d < 10
    ensures '0' <= c <= '9'
    ensures c as int - '0' as int == d
  {
    (d + '0' as int) as char
  }

  predicate IsDigits(s: string)
  {
    forall i :: 0 <= i < |s| ==> '0' <= s[i] <= '9'
  }

  /** Unsigned decimal rendering without leading zeros. */
  function Decimal(n: nat): (s: string)
    ensures 1 <= |s|
    ensures IsDigits(s)
    ensures n < 10 <==> |s| == 1
    ensures s[|s| - 1] == DigitChar(n % 10)
    decreases n
  {
    if n < 10 then [DigitChar(n)] else Decimal(n / 10) + [DigitChar(n % 10)]
  }

  /** Different numbers never render to the same text. */
  lemma {:induction false} DecimalInjective(a: nat, b: nat)
    requires Decimal(a) == Decimal(b)
    ensures a == b
    decreases a
  {
    if a >= 10 && b >= 10 {
      var sa, sb := Decimal(a), Decimal(b);
      assert sa[|sa| - 1] == sb[|sb| - 1];
      assert a % 10 == b % 10;
      assert Decimal(a / 10) == sa[..|sa| - 1] == sb[..|sb| - 1] == Decimal(b / 10);
      DecimalInjective(a / 10, b / 10);
    } else {
      assert a < 10 && b < 10;
      assert DigitChar(a % 10) == DigitChar(b % 10);
    }
  }

  /** Some iteration order of a hash set (or of a hash map's keys). */
  method Enumerate<T>(s: set<T>) returns (keys: seq<T>)
    ensures |keys| == |s|
    ensures forall i :: 0 <= i < |keys| ==> keys[i] in s
    ensures forall c :: c in s ==> c in keys
    ensures forall i, j :: 0 <= i < j < |keys| ==> keys[i] != keys[j]
  {
    keys := [];
    var pending := s;
    while pending != {}
      invariant pending <= s && |keys| + |pending| == |s|
      invariant forall i :: 0 <= i < |keys| ==> keys[i] in s && keys[i] !in pending
      invariant forall c :: c in s ==> c in keys || c in pending
      invariant forall i, j :: 0 <= i < j < |keys| ==> keys[i] != keys[j]
      decreases |pending|
    {
      var c :| c in pending;
      keys := keys + [c];
      pending := pending - {c};
    }
  }
}
