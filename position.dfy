/** A labelled position: validity flags, a unit of length, a sample record, and two fixed
    100-character buffers (the label and a categorical region) filled the way `strncpy` fills
    them. */
module Positions {

  import opened Timing

  /** `sizeof(label_)` and `sizeof(region)`. */
  const BUFFER_SIZE: nat := 100

  datatype DistanceUnit = Pixels | World

  /** The enumerator value of a unit. */
  function UnitCode(u: DistanceUnit): int
  {
    match u
    case Pixels => 0
    case World => 1
  }

  /** `n` NUL characters. */
  function Nuls(n: nat): (r: seq<char>)
    ensures |r| == n && forall i :: 0 <= i < n ==> r[i] == '\0'
  {
    seq(n, _ => '\0')
  }

  /** The C string that starts at `s`: its characters up to, not including, the first NUL (all
      of `s` when it holds none, which for a `std::string` is where `c_str()` puts one). */
  function CString(s: seq<char>): (r: seq<char>)
    ensures |r| <= |s| && r == s[..|r|]
    ensures '\0' !in r
    ensures |r| < |s| ==> s[|r|] == '\0'
    decreases |s|
  {
    if s == [] || s[0] == '\0' then [] else [s[0]] + CString(s[1..])
  }

  /** The `n` characters `strncpy(dst, src, n)` writes: the C string at `src`, cut at `n`
      characters, then NUL padding up to `n`. */
  function Strncpy(src: seq<char>, n: nat): (r: seq<char>)
    ensures |r| == n
  {
    var c := CString(src);
    if |c| >= n then c[..n] else c + Nuls(n - |c|)
  }

  /** A buffer after `strncpy(buf, src, sizeof(buf)); buf[sizeof(buf) - 1] = '\0';`. */
  function Terminated(src: seq<char>): (r: seq<char>)
    ensures |r| == BUFFER_SIZE
  {
    Strncpy(src, BUFFER_SIZE)[..BUFFER_SIZE - 1] + ['\0']
  }

  /** `strncpy` into an array, in place. */
  method CopyInto(dst: array<char>, src: seq<char>, n: nat)
    requires n <= dst.Length
    modifies dst
    ensures dst[..n] == Strncpy(src, n)
    ensures dst[n..] == old(dst[n..])
  {
    ghost var c, r := CString(src), Strncpy(src, n);
    var i := 0;
    while i < n && i < |src| && src[i] != '\0'
      invariant 0 <= i <= n && i <= |c|
      invariant forall j :: 0 <= j < i ==> dst[j] == c[j]
      invariant forall j :: n <= j < dst.Length ==> dst[j] == old(dst[j])
    {
      dst[i] := src[i];
      i := i + 1;
    }
    assert i == n || i == |c|;
    assert forall j :: 0 <= j < i ==> r[j] == c[j];
    while i < n
      invariant 0 <= i <= n
      invariant forall j :: 0 <= j < i ==> dst[j] == r[j]
      invariant forall j :: n <= j < dst.Length ==> dst[j] == old(dst[j])
    {
      dst[i] := '\0';
      i := i + 1;
    }
    assert dst[..n] == r;
  }

  /** The stored buffer always ends in NUL and holds, as a C string, at most the first 99
      characters of the source's C string. */
  lemma TerminatedPrefix(src: seq<char>)
    ensures Terminated(src)[BUFFER_SIZE - 1] == '\0'
    ensures var c := CString(src);
      CString(Terminated(src)) == if |c| < BUFFER_SIZE then c else c[..BUFFER_SIZE - 1]
  {
    var c, t := CString(src), Terminated(src);
    var k := if |c| < BUFFER_SIZE then |c| else BUFFER_SIZE - 1;
    assert t[..k] == c[..k];
    assert t[k] == '\0';
    CStringOf(t, k);
  }

  /** A string with no NUL and fewer than 100 characters is stored exactly, followed by NULs
      up to the end of the buffer. */
  lemma ShortTextStoredExactly(src: seq<char>)
    requires |src| < BUFFER_SIZE && '\0' !in src
    ensures Terminated(src) == src + Nuls(BUFFER_SIZE - |src|)
  {
    CStringOf(src, |src|);
    assert CString(src) == src;
  }

  /** The C string of `s` is its first `k` characters when those hold no NUL and a NUL (or the
      end) follows. */
  lemma CStringOf(s: seq<char>, k: nat)
    requires k <= |s| && '\0' !in s[..k]
    requires k < |s| ==> s[k] == '\0'
    ensures CString(s) == s[..k]
  {
  }

  class Position {

    const labelBuffer: array<char>
    const region: array<char>
    const sample: Sample

    var regionValid: bool
    var positionValid: bool
    var velocityValid: bool
    var headingValid: bool
    var unit: DistanceUnit

    predicate Valid()
    {
      labelBuffer.Length == BUFFER_SIZE && region.Length == BUFFER_SIZE && labelBuffer != region
    }

    /** Every flag is false, the unit is pixels, the region is all NUL, the sample is at its
        default, and the label holds the truncated copy of `text`. */
    constructor (text: string)
      ensures Valid() && fresh(labelBuffer) && fresh(region) && fresh(sample)
      ensures labelBuffer[..] == Terminated(text)
      ensures region[..] == Nuls(BUFFER_SIZE)
      ensures !regionValid && !positionValid && !velocityValid && !headingValid
      ensures unit == Pixels
      ensures sample.count == 0 && sample.microseconds == 0 && sample.periodMicroseconds == 0
    {
      labelBuffer := new char[BUFFER_SIZE](_ => '\0');
      region := new char[BUFFER_SIZE](_ => '\0');
      sample := new Sample();
      regionValid, positionValid, velocityValid, headingValid := false, false, false, false;
      unit := Pixels;
      new;
      CopyInto(labelBuffer, text, BUFFER_SIZE);
      labelBuffer[BUFFER_SIZE - 1] := '\0';
      assert labelBuffer[..] == Strncpy(text, BUFFER_SIZE)[..BUFFER_SIZE - 1] + ['\0'];
    }

    /** `operator=`: copies everything except the label; assigning a position to itself
        changes nothing. */
    method Assign(p: Position)
      requires Valid() && p.Valid()
      modifies this, region, sample
      ensures labelBuffer[..] == old(labelBuffer[..])
      ensures p == this ==> unchanged(this, region, sample)
      ensures p != this ==>
        && unit == old(p.unit)
        && regionValid == old(p.regionValid) && positionValid == old(p.positionValid)
        && velocityValid == old(p.velocityValid) && headingValid == old(p.headingValid)
        && region[..] == Terminated(old(p.region[..]))
        && sample.count == old(p.sample.count)
        && sample.microseconds == old(p.sample.microseconds)
        && sample.periodMicroseconds == old(p.sample.periodMicroseconds)
    {
      if p == this {
        return;
      }
      var from := p.region[..];
      unit := p.unit;
      sample.Assign(p.sample);
      positionValid := p.positionValid;
      velocityValid := p.velocityValid;
      headingValid := p.headingValid;
      regionValid := p.regionValid;
      CopyInto(region, from, BUFFER_SIZE);
      region[BUFFER_SIZE - 1] := '\0';
      assert region[..] == Strncpy(from, BUFFER_SIZE)[..BUFFER_SIZE - 1] + ['\0'];
    }

    function Label(): array<char>
    {
      labelBuffer
    }

    function UnitOfLength(): DistanceUnit
      reads this
    {
      unit
    }
  }
}
