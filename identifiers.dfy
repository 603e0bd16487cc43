/** Random identifiers of a new device: the serial number, drawn from an alphabet
    of digits and capital letters without I, L and O, and the upper-case form of
    a UUID string. The random draws and the raw UUID are inputs. */
module Identifiers {

  /** Digits and capital letters without I, L and O: 33 symbols. */
  const SERIAL_LETTERS: string := "0123456789ABCDEFGHJKMNPQRSTUVWXYZ"

  const SERIAL_LENGTH: nat := 12

  /** Draws a random source may return for one serial: twelve indices into the
      alphabet. */
  predicate IsSerialDraws(draws: seq<nat>)
  {
    |draws| == SERIAL_LENGTH && forall i :: 0 <= i < |draws| ==> draws[i] < |SERIAL_LETTERS|
  }

  predicate IsSerial(s: string)
  {
    |s| == SERIAL_LENGTH && forall i :: 0 <= i < |s| ==> s[i] in SERIAL_LETTERS
  }

  lemma SerialAlphabet()
    ensures |SERIAL_LETTERS| == 33
    ensures 'I' !in SERIAL_LETTERS && 'L' !in SERIAL_LETTERS && 'O' !in SERIAL_LETTERS
  {
  }

  /** Fills a twelve-character buffer with the alphabet letters at the drawn
      indices. */
  method RandSerial(draws: seq<nat>) returns (serial: string)
    requires IsSerialDraws(draws)
    ensures |serial| == SERIAL_LENGTH
    ensures forall i :: 0 <= i < |serial| ==> serial[i] == SERIAL_LETTERS[draws[i]]
    ensures IsSerial(serial)
    ensures 'I' !in serial && 'L' !in serial && 'O' !in serial
  {
    var b := new char[SERIAL_LENGTH];
    for i := 0 to b.Length
      invariant forall j :: 0 <= j < i ==> b[j] == SERIAL_LETTERS[draws[j]]
    {
      b[i] := SERIAL_LETTERS[draws[i]];
    }
    serial := b[..];
    SerialAlphabet();
  }

  // ---------------------------------------------------------------------------
  // Upper case

  predicate IsLower(c: char)
  {
    'a' <= c <= 'z'
  }

  function UpperChar(c: char): char
  {
    if IsLower(c) then (c as int - 32) as char else c
  }

  /** Upper case letter by letter; only ASCII letters are mapped. */
  function ToUpper(s: string): (r: string)
    ensures |r| == |s|
    ensures forall i :: 0 <= i < |r| ==> !IsLower(r[i])
  {
    if s == [] then [] else [UpperChar(s[0])] + ToUpper(s[1..])
  }

  /** A string without lower-case letters is its own upper case. */
  lemma {:induction false} ToUpperFixesUpper(s: string)
    requires forall i :: 0 <= i < |s| ==> !IsLower(s[i])
    ensures ToUpper(s) == s
  {
    if s != [] {
      ToUpperFixesUpper(s[1..]);
    }
  }

  /** Upper-casing an upper-cased string changes nothing. */
  lemma {:induction false} ToUpperIdempotent(s: string)
    ensures ToUpper(ToUpper(s)) == ToUpper(s)
  {
    ToUpperFixesUpper(ToUpper(s));
  }
}
