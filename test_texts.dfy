/**
 * The longer texts of the tests in test.py, and their characters one by one.
 * Each text is written as a concatenation of short pieces, which keeps reading
 * one of its characters cheap to prove.
 */
module TestTexts {
  /** The text of test.py:42, with a space after each ','. */
  const spacedList := "[\"qwerty\", " + "\"asd\", " + "0]"

  /** The characters of `spacedList`, one by one. */
  lemma SpacedListChars()
    ensures |spacedList| == 20 &&
            spacedList[0] == '[' && spacedList[1] == '"' && spacedList[2] == 'q' && spacedList[3] == 'w' && spacedList[4] == 'e' && spacedList[5] == 'r' &&
            spacedList[6] == 't' && spacedList[7] == 'y' && spacedList[8] == '"' && spacedList[9] == ',' && spacedList[10] == ' ' && spacedList[11] == '"' &&
            spacedList[12] == 'a' && spacedList[13] == 's' && spacedList[14] == 'd' && spacedList[15] == '"' && spacedList[16] == ',' && spacedList[17] == ' ' &&
            spacedList[18] == '0' && spacedList[19] == ']'
  {
  }

  /** The text of test.py:44: every kind of value, with a space after each ',' and ':'. */
  const mixedList := "[\"foo\", " + "1, true, " + "false, " + "null, " + "{\"bar\": " + "0}]"

  /** The characters of `mixedList`, one by one. */
  lemma MixedListChars()
    ensures |mixedList| == 41 &&
            mixedList[0] == '[' && mixedList[1] == '"' && mixedList[2] == 'f' && mixedList[3] == 'o' && mixedList[4] == 'o' && mixedList[5] == '"' &&
            mixedList[6] == ',' && mixedList[7] == ' ' && mixedList[8] == '1' && mixedList[9] == ',' && mixedList[10] == ' ' && mixedList[11] == 't' &&
            mixedList[12] == 'r' && mixedList[13] == 'u' && mixedList[14] == 'e' && mixedList[15] == ',' && mixedList[16] == ' ' && mixedList[17] == 'f' &&
            mixedList[18] == 'a' && mixedList[19] == 'l' && mixedList[20] == 's' && mixedList[21] == 'e' && mixedList[22] == ',' && mixedList[23] == ' ' &&
            mixedList[24] == 'n' && mixedList[25] == 'u' && mixedList[26] == 'l' && mixedList[27] == 'l' && mixedList[28] == ',' && mixedList[29] == ' ' &&
            mixedList[30] == '{' && mixedList[31] == '"' && mixedList[32] == 'b' && mixedList[33] == 'a' && mixedList[34] == 'r' && mixedList[35] == '"' &&
            mixedList[36] == ':' && mixedList[37] == ' ' && mixedList[38] == '0' && mixedList[39] == '}' && mixedList[40] == ']'
  {
  }

  /** The text of test.py:64. */
  const listMember := "{\"qwerty\": " + "\"asd\", " + "\"foo\": " + "[\"bar1\", " + "\"bar2\"]}"

  /** The characters of `listMember`, one by one. */
  lemma ListMemberChars()
    ensures |listMember| == 42 &&
            listMember[0] == '{' && listMember[1] == '"' && listMember[2] == 'q' && listMember[3] == 'w' && listMember[4] == 'e' && listMember[5] == 'r' &&
            listMember[6] == 't' && listMember[7] == 'y' && listMember[8] == '"' && listMember[9] == ':' && listMember[10] == ' ' && listMember[11] == '"' &&
            listMember[12] == 'a' && listMember[13] == 's' && listMember[14] == 'd' && listMember[15] == '"' && listMember[16] == ',' && listMember[17] == ' ' &&
            listMember[18] == '"' && listMember[19] == 'f' && listMember[20] == 'o' && listMember[21] == 'o' && listMember[22] == '"' && listMember[23] == ':' &&
            listMember[24] == ' ' && listMember[25] == '[' && listMember[26] == '"' && listMember[27] == 'b' && listMember[28] == 'a' && listMember[29] == 'r' &&
            listMember[30] == '1' && listMember[31] == '"' && listMember[32] == ',' && listMember[33] == ' ' && listMember[34] == '"' && listMember[35] == 'b' &&
            listMember[36] == 'a' && listMember[37] == 'r' && listMember[38] == '2' && listMember[39] == '"' && listMember[40] == ']' && listMember[41] == '}'
  {
  }

  /** The text of test.py:68. */
  const objectMember := "{\"qwerty\": " + "\"asd\", " + "\"foo\": " + "{\"bar\": " + "\"baz\"}}"

  /** The characters of `objectMember`, one by one. */
  lemma ObjectMemberChars()
    ensures |objectMember| == 40 &&
            objectMember[0] == '{' && objectMember[1] == '"' && objectMember[2] == 'q' && objectMember[3] == 'w' && objectMember[4] == 'e' && objectMember[5] == 'r' &&
            objectMember[6] == 't' && objectMember[7] == 'y' && objectMember[8] == '"' && objectMember[9] == ':' && objectMember[10] == ' ' && objectMember[11] == '"' &&
            objectMember[12] == 'a' && objectMember[13] == 's' && objectMember[14] == 'd' && objectMember[15] == '"' && objectMember[16] == ',' && objectMember[17] == ' ' &&
            objectMember[18] == '"' && objectMember[19] == 'f' && objectMember[20] == 'o' && objectMember[21] == 'o' && objectMember[22] == '"' && objectMember[23] == ':' &&
            objectMember[24] == ' ' && objectMember[25] == '{' && objectMember[26] == '"' && objectMember[27] == 'b' && objectMember[28] == 'a' && objectMember[29] == 'r' &&
            objectMember[30] == '"' && objectMember[31] == ':' && objectMember[32] == ' ' && objectMember[33] == '"' && objectMember[34] == 'b' && objectMember[35] == 'a' &&
            objectMember[36] == 'z' && objectMember[37] == '"' && objectMember[38] == '}' && objectMember[39] == '}'
  {
  }
}
