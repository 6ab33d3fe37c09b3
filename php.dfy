/** The few PHP string built-ins the modelled code relies on, over byte strings.
    A PHP string is a sequence of bytes; here each `char` stands for one byte. */
module Php {

  /** An optional value: PHP's `null` beside a value of type T, and `strrpos`'s `false`. */
  datatype Option<T> = None | Some(value: T)

  /** `substr($s, $start, $length)` for a non-negative start and length: the bytes of `s`
      from `start` on, at most `length` of them, and "" when `start` is at or past the end. */
  function Substr(s: string, start: nat, length: nat): (r: string)
    ensures |r| <= length
    ensures forall i | 0 <= i < |r| :: start + i < |s| && r[i] == s[start + i]
    ensures |r| == length || start + |r| >= |s|
  {
    if start >= |s| then ""
    else if start + length <= |s| then s[start..start + length]
    else s[start..]
  }

  /** `strrpos($s, $c)` for a single byte: the position of the last occurrence of `c`;
      `None` stands for the `false` PHP returns when `c` does not occur. */
  function Strrpos(s: string, c: char): (r: Option<nat>)
    ensures r.None? <==> c !in s
    ensures r.Some? ==> r.value < |s| && s[r.value] == c && c !in s[r.value + 1..]
  {
    if s == [] then None
    else if s[|s| - 1] == c then Some(|s| - 1)
    else Strrpos(s[..|s| - 1], c)
  }

  /** An in-bounds `substr` is exactly the slice it names. */
  lemma SubstrInBounds(s: string, start: nat, length: nat)
    requires start + length <= |s|
    ensures Substr(s, start, length) == s[start..start + length]
  {
  }
}

/** What the tree builder receives from the tokenizer about attributes. */
module Tokenizer {

  /** One entry of `Attributes::getValues()`: an attribute name and its value. */
  datatype Attribute = Attribute(name: string, value: string)

  /** The attributes of a start tag in source order; duplicates were already dropped by the tokenizer. */
  type Attributes = seq<Attribute>
}
