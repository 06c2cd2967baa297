/**
 * Serial-number synthesis for an ACM cable: a length drawn from [1, 100] and
 * one alphanumeric symbol drawn per position.  The random module is not
 * modelled; its choices arrive as a `Draw`.
 */
module SerialNumbers {
  import opened Strings

  /** The longest serial number an ACM cable accepts. */
  const SerialNumberSize: nat := 100

  const AsciiLetters: string := "abcdefghijklmnopqrstuvwxyzABCDEFGHIJKLMNOPQRSTUVWXYZ"
  const Digits: string := "0123456789"

  /** The 62 symbols every character of a serial number is chosen from. */
  const Alphabet: string := AsciiLetters + Digits

  /** What the cable accepts as a serial number: 1 to 100 alphanumeric symbols. */
  predicate IsSerialNumber(s: string) {
    1 <= |s| <= SerialNumberSize && forall i :: 0 <= i < |s| ==> s[i] in Alphabet
  }

  /**
   * The random choices one call makes: the length returned by
   * `randint(1, SerialNumberSize)`, then, per position, the index into
   * `Alphabet` that `choice` picked.
   */
  datatype SerialDraw = SerialDraw(length: int, picks: seq<int>)

  predicate ValidDraw(d: SerialDraw) {
    && 1 <= d.length <= SerialNumberSize
    && |d.picks| == d.length
    && forall i :: 0 <= i < |d.picks| ==> 0 <= d.picks[i] < |Alphabet|
  }

  /** Only choices the random module can actually return. */
  type Draw = d: SerialDraw | ValidDraw(d) witness SerialDraw(1, [0])

  /** The characters named by `picks`, joined in order. */
  function JoinPicks(picks: seq<int>): (s: string)
    requires forall i :: 0 <= i < |picks| ==> 0 <= picks[i] < |Alphabet|
    ensures |s| == |picks|
    ensures forall i :: 0 <= i < |s| ==> s[i] == Alphabet[picks[i]]
  {
    if picks == [] then "" else [Alphabet[picks[0]]] + JoinPicks(picks[1..])
  }

  /** `create_serialnumber`: one character per position of the drawn length. */
  function CreateSerialNumber(d: Draw): (sn: string)
    ensures IsSerialNumber(sn)
    ensures |sn| == d.length
    ensures forall i :: 0 <= i < |sn| ==> sn[i] == Alphabet[d.picks[i]]
  {
    JoinPicks(d.picks)
  }

  /** The choices that make the generator produce `sn`. */
  function DrawOf(sn: string): (d: Draw)
    requires IsSerialNumber(sn)
    ensures d.length == |sn|
  {
    SerialDraw(|sn|, seq(|sn|, i requires 0 <= i < |sn| => IndexOf(Alphabet, sn[i])))
  }

  /** Every serial number the cable accepts is one the generator can produce. */
  lemma EverySerialNumberReachable(sn: string)
    requires IsSerialNumber(sn)
    ensures CreateSerialNumber(DrawOf(sn)) == sn
  {
    var s := CreateSerialNumber(DrawOf(sn));
    assert forall i :: 0 <= i < |sn| ==> s[i] == sn[i];
  }

  /** The generator produces exactly the serial numbers the cable accepts. */
  lemma GeneratorRange(sn: string)
    ensures IsSerialNumber(sn) <==> exists d: Draw :: CreateSerialNumber(d) == sn
  {
    if IsSerialNumber(sn) {
      EverySerialNumberReachable(sn);
    }
  }
}
