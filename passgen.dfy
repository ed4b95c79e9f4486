/** The password generator that pre-fills the new-entry form. The random
    source (`rand.Intn`) is replaced by the sequence of indices it drew. */
module Passgen {

  /** The fixed 90-character alphabet of `GeneratePassword`. */
  const Charset: string :=
    "abcdefghijklmnopqrstuvwxyzABCDEFGHIJKLMNOPQR" +
    "STUVWXYZ0123456789!@#$%^&*()-_=+[{}];:'\",<.>/?"

  const PasswordLength: nat := 16

  /** What `rand.Intn(len(charset))` can return, once per character. */
  predicate ValidDraws(draws: seq<int>)
  {
    |draws| == PasswordLength && forall i :: 0 <= i < |draws| ==> 0 <= draws[i] < |Charset|
  }

  /** The password that a given sequence of draws produces. */
  function PasswordFrom(draws: seq<int>): (pw: string)
    requires ValidDraws(draws)
  {
    seq(PasswordLength, i requires 0 <= i < PasswordLength => Charset[draws[i]])
  }

  /** Fills a 16-byte buffer one character per draw. */
  method GeneratePassword(draws: seq<int>) returns (pw: string)
    requires ValidDraws(draws)
    ensures |pw| == PasswordLength
    ensures forall i :: 0 <= i < |pw| ==> pw[i] == Charset[draws[i]]
    ensures pw == PasswordFrom(draws)
  {
    var b := new char[PasswordLength];
    for i := 0 to b.Length
      invariant forall j :: 0 <= j < i ==> b[j] == Charset[draws[j]]
    {
      b[i] := Charset[draws[i]];
    }
    pw := b[..];
  }

  lemma CharsetSize()
    ensures |Charset| == 90
  {
  }

  /** Every generated password is 16 characters long and made of charset
      characters only. */
  lemma PasswordShape(draws: seq<int>)
    requires ValidDraws(draws)
    ensures |PasswordFrom(draws)| == PasswordLength
    ensures forall i :: 0 <= i < PasswordLength ==> PasswordFrom(draws)[i] in Charset
  {
  }
}
