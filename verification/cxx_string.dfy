/** The parts of std::string the line parser relies on: `find`, `substr` and the unsigned
    size_t arithmetic on their positions, with a 64-bit size_t. */
module CxxString {
  import opened Environ

  /** std::string::npos, the largest size_t. */
  const NPos: nat := 0xFFFF_FFFF_FFFF_FFFF

  /** Arithmetic on size_t wraps around modulo 2^64. */
  function SizeT(x: int): (r: nat)
    ensures r <= NPos
    ensures 0 <= x <= NPos ==> r == x
    ensures (x - r) % (NPos + 1) == 0
  {
    x % (NPos + 1)
  }

  /** A difference that goes below zero wraps to the top of the size_t range. */
  lemma SizeTWrapsNegative(x: int)
    requires -(NPos + 1) <= x < 0
    ensures SizeT(x) == x + NPos + 1
  {
  }

  /** Position of the first `c` in `s`. */
  function IndexOf(s: string, c: char): (r: nat)
    requires c in s
    ensures r < |s| && s[r] == c
    ensures forall j :: 0 <= j < r ==> s[j] != c
    decreases |s|
  {
    if s[0] == c then 0 else 1 + IndexOf(s[1..], c)
  }

  /** `s.find(c)`: the first position of `c`, or npos when there is none. */
  function Find(s: string, c: char): (r: nat)
    ensures c in s ==> r < |s| && s[r] == c
    ensures c in s ==> forall j :: 0 <= j < r ==> s[j] != c
    ensures c !in s ==> r == NPos
  {
    if c in s then IndexOf(s, c) else NPos
  }

  /** `s.substr(pos, count)`: throws std::out_of_range when `pos` is past the end; otherwise
      at most `count` characters from `pos`, clamped at the end of the string. A count of
      npos reaches the end of any std::string, all of which are shorter than npos; the model
      says so outright so that it holds of every Dafny string. */
  function Substr(s: string, pos: nat, count: nat): (r: Result<string>)
    ensures r.Err? <==> pos > |s|
    ensures r.Err? ==> r.error == OutOfRange
    ensures r.Ok? ==> (|r.value| <= count || count == NPos) && pos + |r.value| <= |s|
    ensures r.Ok? ==> r.value == s[pos..pos + |r.value|]
    ensures r.Ok? && |r.value| < count ==> pos + |r.value| == |s|
    ensures r.Ok? && count == NPos ==> r.value == s[pos..]
  {
    if pos > |s| then Err(OutOfRange)
    else if count < |s| - pos && count != NPos then Ok(s[pos..pos + count])
    else Ok(s[pos..])
  }
}
