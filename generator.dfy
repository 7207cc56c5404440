/**
 * `generate_password`: the character set is the concatenation of the chosen
 * classes (upper-case letters, lower-case letters, digits, 26 symbols, in that
 * order); no class chosen is an error; otherwise `length` characters are each
 * drawn from the set. The random index is a nondeterministic choice.
 */
module Generator {
  import opened Wrappers

  type u32 = x: nat | x < 0x1_0000_0000

  const Symbols: string := "!@#$%^&*()_+-=[]{}|;:,.<>?"
  const NoCharacterType: string := "至少需要选择一种字符类型"

  /** Rust's inclusive range `lo..=hi` of (ASCII) characters. */
  function CharRange(lo: char, hi: char): (r: string)
    requires lo <= hi < '\U{0080}'
    ensures |r| == hi as int - lo as int + 1
    ensures forall c :: c in r <==> lo <= c <= hi
  {
    var r := seq(hi as int - lo as int + 1, i requires 0 <= i <= hi as int - lo as int => (lo as int + i) as char);
    assert forall c | lo <= c <= hi :: c in r by {
      forall c | lo <= c <= hi ensures c in r {
        assert r[c as int - lo as int] == c;
      }
    }
    r
  }

  /**
   * The `chars` vector as built for the four flags: 26, 26, 10 and 26
   * characters per class, empty exactly when no class is chosen.
   */
  function Charset(upper: bool, lower: bool, numbers: bool, symbols: bool): (r: string)
    ensures |r| == (if upper then 26 else 0) + (if lower then 26 else 0) + (if numbers then 10 else 0) + (if symbols then 26 else 0)
    ensures r == [] <==> !upper && !lower && !numbers && !symbols
  {
    assert |Symbols| == 26;
    (if upper then CharRange('A', 'Z') else [])
    + (if lower then CharRange('a', 'z') else [])
    + (if numbers then CharRange('0', '9') else [])
    + (if symbols then Symbols else [])
  }

  /** A character is available exactly when its class was chosen. */
  lemma CharsetMembers(upper: bool, lower: bool, numbers: bool, symbols: bool, c: char)
    ensures c in Charset(upper, lower, numbers, symbols) <==>
      || (upper && 'A' <= c <= 'Z') || (lower && 'a' <= c <= 'z')
      || (numbers && '0' <= c <= '9') || (symbols && c in Symbols)
  {
  }

  method GeneratePassword(length: u32, upper: bool, lower: bool, numbers: bool, symbols: bool)
    returns (r: Result<string, string>)
    ensures r.Err? <==> !upper && !lower && !numbers && !symbols
    ensures r.Err? ==> r.error == NoCharacterType
    ensures r.Ok? ==> |r.value| == length
    ensures r.Ok? ==> forall i :: 0 <= i < |r.value| ==> r.value[i] in Charset(upper, lower, numbers, symbols)
  {
    var chars: string := [];
    if upper {
      chars := chars + CharRange('A', 'Z');
    }
    if lower {
      chars := chars + CharRange('a', 'z');
    }
    if numbers {
      chars := chars + CharRange('0', '9');
    }
    if symbols {
      chars := chars + Symbols;
    }
    assert chars == Charset(upper, lower, numbers, symbols);
    if |chars| == 0 {
      return Err(NoCharacterType);
    }
    var result: string := [];
    for k := 0 to length
      invariant |result| == k
      invariant forall i :: 0 <= i < k ==> result[i] in chars
    {
      var idx :| 0 <= idx < |chars|;
      result := result + [chars[idx]];
    }
    r := Ok(result);
  }
}
