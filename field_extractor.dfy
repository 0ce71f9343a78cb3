/**
 The typed field extractors of the git command header, `parseString` and
 `parseInt`. Each looks a named field up in a message, tests the field's
 dynamic type, and on success stores the value in the caller's out-parameter
 and returns 0; on failure it returns 1 and leaves the out-parameter as it was.

 The out-parameter (`std::string&` for strings, `int*` for integers) is an
 in/out pair here: the method receives the caller's current value and returns
 the value the caller holds afterwards. The message is passed by value and the
 methods cannot change it.

 The field name is a `const char*`. `message.Get(name)` converts it to a string
 var, which reads the characters up to the first NUL; `CString` gives that key
 from the character buffer the pointer designates.
 */
module FieldExtractor {
  import opened PpVar

  /** A buffer that a `const char*` may legally designate: it holds a terminating NUL. */
  predicate IsCString(buf: seq<char>)
  {
    '\0' in buf
  }

  /** The string a NUL-terminated buffer denotes: every character before its first NUL. */
  function CString(buf: seq<char>): (key: string)
    requires IsCString(buf)
    ensures |key| < |buf| && key == buf[..|key|]
    ensures buf[|key|] == '\0'
    ensures '\0' !in key
  {
    if buf[0] == '\0' then ""
    else
      assert '\0' in buf[1..] by {
        var k :| 0 <= k < |buf| && buf[k] == '\0';
        assert buf[1..][k - 1] == '\0';
      }
      [buf[0]] + CString(buf[1..])
  }

  /** A string literal `"..."` (characters followed by its NUL) names exactly its characters. */
  lemma LiteralNamesItself(chars: string)
    requires '\0' !in chars
    ensures IsCString(chars + "\0")
    ensures CString(chars + "\0") == chars
  {
  }

  /** Nothing after the terminating NUL takes part in naming the field. */
  lemma NameIgnoresTail(buf: seq<char>, tail: seq<char>)
    requires IsCString(buf)
    ensures IsCString(buf + tail)
    ensures CString(buf + tail) == CString(buf)
  {
    assert (buf + tail)[|CString(buf)|] == '\0';
  }

  /**
   `parseString(message, name, option)`. Returns 0 exactly when the named field
   holds a string, and then `option'` is that string; returns 1 otherwise, an
   absent field included, and then `option'` is the caller's `option`.
   */
  method ParseString(message: VarDictionary, name: seq<char>, option: string)
    returns (code: int32, option': string)
    requires IsCString(name)
    ensures code == 0 || code == 1
    ensures code == 0 <==> CString(name) in message && message[CString(name)].Str?
    ensures code == 0 ==> option' == message[CString(name)].s
    ensures code == 1 ==> option' == option
    // an absent field fails like a field of another type
    ensures CString(name) !in message ==> code == 1 && option' == option
  {
    var varOption := Get(message, CString(name));
    if !varOption.IsString() {
      return 1, option;
    }
    option' := varOption.AsString();
    return 0, option';
  }

  /**
   `parseInt(message, name, option)`. Returns 0 exactly when the named field
   holds a 32-bit integer, and then `*option` becomes that integer; returns 1
   otherwise, an absent field or a double included, and then `*option` is left
   as it was.
   */
  method ParseInt(message: VarDictionary, name: seq<char>, option: int32)
    returns (code: int32, option': int32)
    requires IsCString(name)
    ensures code == 0 || code == 1
    ensures code == 0 <==> CString(name) in message && message[CString(name)].Int?
    ensures code == 0 ==> option' == message[CString(name)].i
    ensures code == 1 ==> option' == option
    // an absent field fails like a field of another type
    ensures CString(name) !in message ==> code == 1 && option' == option
  {
    var varOption := Get(message, CString(name));
    if !varOption.IsInt() {
      return 1, option;
    }
    option' := varOption.AsInt();
    return 0, option';
  }
}
