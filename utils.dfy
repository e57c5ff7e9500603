/** `normalize_string`: every listed string replaced by the normaliser, one
    listed string after the other. */
module Utils {
  import opened Text

  /** The result of the loop: the replacements applied in list order, each
      to the result of the previous ones. */
  function Normalized(s: string, chars: seq<string>, normalizer: string): string
    decreases |chars|
  {
    if chars == [] then s
    else Normalized(ReplaceAll(s, chars[0], normalizer), chars[1..], normalizer)
  }

  /** `normalize_string(input_str, chars_to_normalize, normalizer)`. */
  method NormalizeString(inputStr: string, charsToNormalize: seq<string>, normalizer: string)
    returns (r: string)
    ensures r == Normalized(inputStr, charsToNormalize, normalizer)
    ensures charsToNormalize == [] ==> r == inputStr
  {
    r := inputStr;
    var i := 0;
    while i < |charsToNormalize|
      invariant 0 <= i <= |charsToNormalize|
      invariant Normalized(r, charsToNormalize[i..], normalizer)
                == Normalized(inputStr, charsToNormalize, normalizer)
    {
      assert charsToNormalize[i..][1..] == charsToNormalize[i + 1..];
      r := ReplaceAll(r, charsToNormalize[i], normalizer);
      i := i + 1;
    }
  }

  /** Every listed string is a single character. */
  predicate SingleChars(chars: seq<string>) {
    forall j :: 0 <= j < |chars| ==> |chars[j]| == 1
  }

  /** `c` is one of the listed characters. */
  predicate Listed(c: char, chars: seq<string>) {
    [c] in chars
  }

  /** With single characters to replace and a single-character normaliser,
      normalising is a pointwise map: the length is kept, a character that
      is not listed stays where it was, and, when the normaliser itself is
      not listed, every listed character becomes the normaliser. */
  lemma {:induction false} NormalizedPointwise(s: string, chars: seq<string>, d: char)
    requires SingleChars(chars)
    ensures |Normalized(s, chars, [d])| == |s|
    ensures forall k :: 0 <= k < |s| && !Listed(s[k], chars) ==> Normalized(s, chars, [d])[k] == s[k]
    ensures !Listed(d, chars) ==>
              forall k :: 0 <= k < |s| && Listed(s[k], chars) ==> Normalized(s, chars, [d])[k] == d
    decreases |chars|
  {
    if chars != [] {
      var c := chars[0][0];
      assert chars[0] == [c];
      var s1 := ReplaceAll(s, [c], [d]);
      ReplaceAllChar(s, c, d);
      var rest := chars[1..];
      assert SingleChars(rest) by {
        forall j | 0 <= j < |rest| ensures |rest[j]| == 1 {
          assert rest[j] == chars[j + 1];
        }
      }
      NormalizedPointwise(s1, rest, d);
      assert forall x :: x in rest ==> x in chars;
      assert forall x :: x in chars ==> x == [c] || x in rest;
    }
  }

  /** When the normaliser is not listed, no listed character is left. */
  lemma NormalizedRemovesListed(s: string, chars: seq<string>, d: char)
    requires SingleChars(chars) && !Listed(d, chars)
    ensures forall j :: 0 <= j < |chars| ==> !Contains(Normalized(s, chars, [d]), chars[j])
  {
    var r := Normalized(s, chars, [d]);
    NormalizedPointwise(s, chars, d);
    forall j | 0 <= j < |chars| ensures !Contains(r, chars[j]) {
      var c := chars[j][0];
      assert chars[j] == [c];
      ContainsChar(r, c);
      if c in r {
        var k :| 0 <= k < |r| && r[k] == c;
        assert Listed(r[k], chars);
      }
    }
  }

  /** When the normaliser is not listed, normalising twice is normalising
      once. */
  lemma NormalizedIdempotent(s: string, chars: seq<string>, d: char)
    requires SingleChars(chars) && !Listed(d, chars)
    ensures Normalized(Normalized(s, chars, [d]), chars, [d]) == Normalized(s, chars, [d])
  {
    var r := Normalized(s, chars, [d]);
    NormalizedPointwise(s, chars, d);
    NormalizedPointwise(r, chars, d);
    forall k | 0 <= k < |r| ensures !Listed(r[k], chars) {
      if Listed(s[k], chars) {
        assert r[k] == d;
      } else {
        assert r[k] == s[k];
      }
    }
  }
}
