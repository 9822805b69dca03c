/** Recognising a USPS tracking number by its shape, and the (disabled)
    check-digit validation. */
module UspsClassify {
  import opened PyStr

  /** Two letters, seven digits, two free characters, two letters
      (for example "EC123456789US"). */
  predicate Shape13(x: string) {
    IsAlpha(Slice(x, 0, 2)) && IsDigit(Slice(x, 2, 9)) && IsAlpha(Slice(x, 11, 13))
  }

  /** Twenty digits starting with '0'. */
  predicate Shape20(x: string) {
    IsDigit(x) && StartsWith(x, "0")
  }

  /** Twenty-two digits starting with '9' but not with "96". */
  predicate Shape22(x: string) {
    IsDigit(x) && StartsWith(x, "9") && !StartsWith(x, "96")
  }

  /** A table of shape tests keyed by length; any other length is refused. */
  predicate Identify(num: string)
    ensures Identify(num) ==> |num| == 13 || |num| == 20 || |num| == 22
  {
    var shapes := map[13 := Shape13, 20 := Shape20, 22 := Shape22];
    (if |num| in shapes then shapes[|num|] else (x: string) => false)(num)
  }

  lemma Identify13(num: string)
    requires |num| == 13
    ensures Identify(num) <==>
              (forall i :: 0 <= i < 2 ==> IsLetter(num[i]))
              && (forall i :: 2 <= i < 9 ==> IsDigitChar(num[i]))
              && (forall i :: 11 <= i < 13 ==> IsLetter(num[i]))
  {
    var a, b, c := Slice(num, 0, 2), Slice(num, 2, 9), Slice(num, 11, 13);
    AllIff(a, IsLetter);
    AllIff(b, IsDigitChar);
    AllIff(c, IsLetter);
    assert (forall i :: 2 <= i < 9 ==> IsDigitChar(num[i])) <==> (forall i :: 0 <= i < 7 ==> IsDigitChar(b[i])) by {
      assert forall i :: 2 <= i < 9 ==> num[i] == b[i - 2];
    }
    assert (forall i :: 11 <= i < 13 ==> IsLetter(num[i])) <==> (forall i :: 0 <= i < 2 ==> IsLetter(c[i])) by {
      assert forall i :: 11 <= i < 13 ==> num[i] == c[i - 11];
    }
  }

  /** The characters at indices 9 and 10 never affect a 13-character verdict. */
  lemma Identify13IgnoresIndices9And10(a: string, b: string)
    requires |a| == 13 && |b| == 13
    requires forall i :: 0 <= i < 13 && i != 9 && i != 10 ==> a[i] == b[i]
    ensures Identify(a) == Identify(b)
  {
    Identify13(a);
    Identify13(b);
  }

  lemma Identify20(num: string)
    requires |num| == 20
    ensures Identify(num) <==> (forall i :: 0 <= i < 20 ==> IsDigitChar(num[i])) && num[0] == '0'
  {
    AllIff(num, IsDigitChar);
  }

  lemma Identify22(num: string)
    requires |num| == 22
    ensures Identify(num) <==>
              (forall i :: 0 <= i < 22 ==> IsDigitChar(num[i])) && num[0] == '9' && num[1] != '6'
  {
    AllIff(num, IsDigitChar);
    assert StartsWith(num, "96") <==> num[0] == '9' && num[1] == '6' by {
      assert num[..2] == [num[0], num[1]];
    }
  }

  lemma IdentifyAccepts13()
    ensures Identify("EC123456789US")
  {
    var n := "EC123456789US";
    Identify13(n);
    assert forall i :: 2 <= i < 9 ==> IsDigitChar(n[i]);
  }

  /** The ten decimal digits in order. */
  const Digits: string := "0123456789"

  /** The ten decimal digits, written out twice, are all digits. */
  lemma TwiceTheDigits()
    ensures |Digits + Digits| == 20 && forall i :: 0 <= i < 20 ==> IsDigitChar((Digits + Digits)[i])
  {
    assert forall i :: 0 <= i < 10 ==> IsDigitChar(Digits[i]);
  }

  lemma IdentifyAccepts20()
    ensures Identify("01234567890123456789")
  {
    var n := "01234567890123456789";
    TwiceTheDigits();
    assert n == Digits + Digits;
    Identify20(n);
  }

  lemma IdentifyAccepts22()
    ensures Identify("9012345678901234567890")
  {
    TwiceTheDigits();
    var n := "9" + (Digits + Digits) + "0";
    assert forall i :: 0 <= i < 22 ==> IsDigitChar(n[i]);
    Identify22(n);
    assert Identify(n);
    assert n == "9012345678901234567890";
  }

  lemma IdentifyRejects13()
    ensures !Identify("E1123456789US")
  {
    var n := "E1123456789US";
    Identify13(n);
    assert n[1] == '1';
  }

  lemma IdentifyRejects20()
    ensures !Identify("11234567890123456789")
  {
    var n := "11234567890123456789";
    Identify20(n);
    assert n[0] == '1';
  }

  lemma IdentifyRejects22()
    ensures !Identify("9623456789012345678901")
  {
  }

  /** Check-digit validation is switched off: every number is accepted. */
  predicate Validate(num: string)
    ensures Validate(num)
  {
    true
  }
}
