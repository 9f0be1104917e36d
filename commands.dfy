/**
 * The command layer of the chat loop: trimming the input line, splitting a
 * `/command argument` line, and choosing the interpreter for a server script.
 */
module Commands {
  import opened Types

  /** The characters Python's `str.isspace` accepts, which `str.strip()` removes. */
  predicate IsSpace(c: char)
  {
    || c == ' ' || c == '\t' || c == '\n' || c == '\r' || c == '\U{0B}' || c == '\U{0C}'
    || c == '\U{1C}' || c == '\U{1D}' || c == '\U{1E}' || c == '\U{1F}' || c == '\U{85}' || c == '\U{A0}'
    || c == '\U{1680}' || ('\U{2000}' <= c <= '\U{200A}') || c == '\U{2028}' || c == '\U{2029}'
    || c == '\U{202F}' || c == '\U{205F}' || c == '\U{3000}'
  }

  /** Every character of `s` at positions `lo` up to `hi` (exclusive) is whitespace. */
  predicate AllSpace(s: string, lo: nat, hi: nat)
    requires lo <= hi <= |s|
  {
    forall k :: lo <= k < hi ==> IsSpace(s[k])
  }

  /** The number of whitespace characters of `s` that begin at position `lo`. */
  function LeadingSpaces(s: string, lo: nat): (n: nat)
    requires lo <= |s|
    ensures lo + n <= |s| && AllSpace(s, lo, lo + n)
    ensures lo + n < |s| ==> !IsSpace(s[lo + n])
    decreases |s| - lo
  {
    if lo == |s| || !IsSpace(s[lo]) then 0 else 1 + LeadingSpaces(s, lo + 1)
  }

  /** The number of whitespace characters of `s[lo..hi]` that end at position `hi`. */
  function TrailingSpaces(s: string, lo: nat, hi: nat): (n: nat)
    requires lo <= hi <= |s|
    ensures n <= hi - lo && AllSpace(s, hi - n, hi)
    ensures n < hi - lo ==> !IsSpace(s[hi - n - 1])
  {
    if hi == lo || !IsSpace(s[hi - 1]) then 0 else 1 + TrailingSpaces(s, lo, hi - 1)
  }

  /**
   * `str.strip()`: the part of `s` left once the whitespace at both ends is
   * removed; it neither begins nor ends with whitespace.
   */
  function Strip(s: string): (r: string)
    ensures exists i: nat :: i + |r| <= |s| && r == s[i..i + |r|] && AllSpace(s, 0, i) && AllSpace(s, i + |r|, |s|)
    ensures r != [] ==> !IsSpace(r[0]) && !IsSpace(r[|r| - 1])
  {
    var i := LeadingSpaces(s, 0);
    var j := TrailingSpaces(s, i, |s|);
    var r := s[i..|s| - j];
    assert r != [] ==> r[0] == s[i] && r[|r| - 1] == s[|s| - j - 1];
    assert i + |r| == |s| - j;
    r
  }

  /** Stripping twice strips no more than stripping once. */
  lemma StripIdempotent(s: string)
    ensures Strip(Strip(s)) == Strip(s)
  {
    var r := Strip(s);
    if r != [] {
      assert LeadingSpaces(r, 0) == 0;
      assert TrailingSpaces(r, 0, |r|) == 0;
      assert r[0..|r|] == r;
    }
  }

  /** A parsed `/command argument` line. */
  datatype Command = Command(name: string, argument: Option<string>)

  /** The position of the first occurrence of `c` in `s`, if any. */
  function IndexOf(s: string, c: char): (r: Option<nat>)
    ensures r.None? <==> c !in s
    ensures r.Some? ==> r.value < |s| && s[r.value] == c && c !in s[..r.value]
  {
    if s == [] then None
    else if s[0] == c then Some(0)
    else
      match IndexOf(s[1..], c)
      case None => None
      case Some(i) =>
        assert s[1..][..i] == s[1..i + 1];
        Some(i + 1)
  }

  /**
   * `_parse_command`: no command unless the line begins with "/"; otherwise
   * the command is the text after "/" up to the first space, and the argument
   * everything after that space (possibly ""), or None when there is no space.
   */
  function ParseCommand(query: string): (r: Option<Command>)
    ensures r.None? <==> (query == [] || query[0] != '/')
    ensures r.Some? ==> ' ' !in r.value.name
    ensures r.Some? ==>
      query == "/" + r.value.name + (if r.value.argument.Some? then " " + r.value.argument.value else "")
  {
    if query == [] || query[0] != '/' then None
    else
      var rest := query[1..];
      match IndexOf(rest, ' ')
      case None => Some(Command(rest, None))
      case Some(i) =>
        assert rest == rest[..i] + " " + rest[i + 1..];
        Some(Command(rest[..i], Some(rest[i + 1..])))
  }

  /**
   * Splitting is the inverse of writing a command line: a command name
   * without spaces and any argument are read back from "/name" or
   * "/name argument".
   */
  lemma {:induction false} ParseCommandRoundTrip(name: string, argument: Option<string>)
    requires ' ' !in name
    ensures ParseCommand("/" + name + (if argument.Some? then " " + argument.value else "")) == Some(Command(name, argument))
  {
    var line := "/" + name + (if argument.Some? then " " + argument.value else "");
    var rest := line[1..];
    assert rest == name + (if argument.Some? then " " + argument.value else "");
    if argument.Some? {
      assert rest[|name|] == ' ' && rest[..|name|] == name;
      assert IndexOf(rest, ' ') == Some(|name|);
      assert rest[|name| + 1..] == argument.value;
    } else {
      assert rest == name;
    }
  }

  predicate EndsWith(s: string, suffix: string)
  {
    |suffix| <= |s| && s[|s| - |suffix|..] == suffix
  }

  /**
   * The extension check of `connect_to_server`: a `.py` script runs under
   * "python", a `.js` script under "node", and any other path is refused.
   */
  function ServerCommand(path: string): (r: Result<string, string>)
    ensures r == Ok("python") <==> EndsWith(path, ".py")
    ensures r == Ok("node") <==> EndsWith(path, ".js")
    ensures r.Err? <==> !EndsWith(path, ".py") && !EndsWith(path, ".js")
    ensures r.Err? ==> r.error == "Server script must be a .py or .js file"
  {
    if EndsWith(path, ".py") then Ok("python")
    else if EndsWith(path, ".js") then Ok("node")
    else Err("Server script must be a .py or .js file")
  }
}
