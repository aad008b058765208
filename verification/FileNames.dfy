/** The file names that the bucket accepts (crates/ic-oss-types/src/file.rs:81-88). */
module FileNames {
  import opened Paths
  import opened Utf8

  /** The characters that trimming removes, those with the Unicode property White_Space. */
  predicate IsWhitespace(c: char) {
    var n := c as int;
    0x09 <= n <= 0x0D || n in {0x20, 0x85, 0xA0, 0x1680, 0x2028, 0x2029, 0x202F, 0x205F, 0x3000} || 0x2000 <= n <= 0x200A
  }

  function TrimStart(text: string): (rest: string)
    ensures |rest| <= |text|
  {
    if text == "" || !IsWhitespace(text[0]) then text else TrimStart(text[1..])
  }

  function TrimEnd(text: string): (rest: string)
    ensures |rest| <= |text|
  {
    if text == "" || !IsWhitespace(text[|text| - 1]) then text else TrimEnd(text[..|text| - 1])
  }

  /** `valid_file_name`: one component of a path, of at most 96 bytes in UTF-8, with nothing to trim. */
  predicate ValidFileName(name: string) {
    && ValidName(name) && TrimEnd(TrimStart(name)) == name && |Encode(name)| <= 96
    && name != "." && name != ".."
  }

  /** There is nothing to trim exactly when neither the first nor the last character is white space. */
  lemma AcceptedNameIff(name: string)
    ensures ValidFileName(name) <==>
              && name != "" && '/' !in name && name != "." && name != ".."
              && !IsWhitespace(name[0]) && !IsWhitespace(name[|name| - 1])
              && |Encode(name)| < 97
  {
  }
}
