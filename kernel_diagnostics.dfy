/** The diagnostic text of `toString`:
    `id:<id> - client_id:<clientId> - session_id:<sessionId> - path:<path>`, where a field
    that was never assigned prints as `undefined`. ReadDiagnostic reads such a text back. */
module KernelDiagnostics {
  import opened Wrappers

  /** The identity fields of a Kernel, as `toJSON` reports them (kernel info aside). */
  datatype Diagnostics = Diagnostics(path: Option<string>, id: Option<string>, clientId: Option<string>, sessionId: Option<string>)

  /** The text a template literal gives for a string field that may be unset. */
  function Show(v: Option<string>): string
  {
    if v.Some? then v.value else "undefined"
  }

  /** The four labelled fields joined by ` - `: the template literal of `toString`. */
  function Render(d: Diagnostics): (r: string)
    ensures r == "id:" + Show(d.id) + " - client_id:" + Show(d.clientId) + " - session_id:" + Show(d.sessionId) + " - path:" + Show(d.path)
  {
    TemplateRegrouped("id:" + Show(d.id), " - ", "client_id:", Show(d.clientId), "session_id:", Show(d.sessionId), "path:", Show(d.path));
    assert " - " + "client_id:" == " - client_id:";
    assert " - " + "session_id:" == " - session_id:";
    assert " - " + "path:" == " - path:";
    ("id:" + Show(d.id)) + " - " + (("client_id:" + Show(d.clientId)) + " - " +
      (("session_id:" + Show(d.sessionId)) + " - " + ("path:" + Show(d.path))))
  }

  /** Regrouping the template: each separator literal splits into ` - ` and a label. */
  lemma TemplateRegrouped(p: string, s: string, t1: string, b: string, t2: string, c: string, t3: string, e: string)
    ensures p + (s + t1) + b + (s + t2) + c + (s + t3) + e == p + s + ((t1 + b) + s + ((t2 + c) + s + (t3 + e)))
  {
  }

  /** The four field texts read back from a diagnostic text. */
  datatype Shown = Shown(id: string, clientId: string, sessionId: string, path: string)

  predicate NoSpace(s: string)
  {
    forall i :: 0 <= i < |s| ==> s[i] != ' '
  }

  /** The pieces of `s` between single spaces. */
  function SplitSpaces(s: string): (r: seq<string>)
    ensures |r| >= 1
  {
    if s == [] then [""]
    else
      var rest := SplitSpaces(s[1..]);
      if s[0] == ' ' then [""] + rest else [[s[0]] + rest[0]] + rest[1..]
  }

  function DropLabel(piece: string, tag: string): Option<string>
  {
    if |tag| <= |piece| && piece[..|tag|] == tag then Some(piece[|tag|..]) else None
  }

  /** Reads a diagnostic text back into its four field texts, or None when it does not
      have the shape of one. */
  function ReadDiagnostic(s: string): Option<Shown>
  {
    var p := SplitSpaces(s);
    if |p| == 7 && p[1] == "-" && p[3] == "-" && p[5] == "-" then
      var id := DropLabel(p[0], "id:");
      var clientId := DropLabel(p[2], "client_id:");
      var sessionId := DropLabel(p[4], "session_id:");
      var path := DropLabel(p[6], "path:");
      if id.Some? && clientId.Some? && sessionId.Some? && path.Some? then
        Some(Shown(id.value, clientId.value, sessionId.value, path.value))
      else None
    else None
  }

  lemma {:induction false} SplitNoSpace(w: string)
    requires NoSpace(w)
    ensures SplitSpaces(w) == [w]
  {
    if w != [] {
      SplitNoSpace(w[1..]);
      assert w[0] != ' ';
      assert [w[0]] + w[1..] == w;
    }
  }

  lemma {:induction false} SplitAtSpace(a: string, b: string)
    requires NoSpace(a)
    ensures SplitSpaces(a + " " + b) == [a] + SplitSpaces(b)
  {
    if a == [] {
      assert a + " " + b == " " + b;
      assert (" " + b)[1..] == b;
    } else {
      assert (a + " " + b)[1..] == a[1..] + " " + b;
      SplitAtSpace(a[1..], b);
      assert [a[0]] + a[1..] == a;
    }
  }

  /** A piece, the separator ` - `, and the rest. */
  lemma SplitAtDash(a: string, rest: string)
    requires NoSpace(a)
    ensures SplitSpaces(a + " - " + rest) == [a, "-"] + SplitSpaces(rest)
  {
    assert a + " - " + rest == a + " " + ("-" + " " + rest);
    SplitAtSpace(a, "-" + " " + rest);
    SplitAtSpace("-", rest);
  }

  lemma NoSpaceConcat(a: string, b: string)
    requires NoSpace(a) && NoSpace(b)
    ensures NoSpace(a + b)
  {
  }

  lemma DropPrefixedTag(tag: string, v: string)
    ensures DropLabel(tag + v, tag) == Some(v)
  {
  }

  /** When no field text contains a space, the diagnostic text reads back as exactly the
      four field texts: `toString` determines id, client id, session id and path. */
  lemma RenderReadsBack(d: Diagnostics)
    requires NoSpace(Show(d.id)) && NoSpace(Show(d.clientId)) && NoSpace(Show(d.sessionId)) && NoSpace(Show(d.path))
    ensures ReadDiagnostic(Render(d)) == Some(Shown(Show(d.id), Show(d.clientId), Show(d.sessionId), Show(d.path)))
  {
    var a, b, c, e := "id:" + Show(d.id), "client_id:" + Show(d.clientId), "session_id:" + Show(d.sessionId), "path:" + Show(d.path);
    NoSpaceConcat("id:", Show(d.id));
    NoSpaceConcat("client_id:", Show(d.clientId));
    NoSpaceConcat("session_id:", Show(d.sessionId));
    NoSpaceConcat("path:", Show(d.path));
    SplitAtDash(a, b + " - " + (c + " - " + e));
    SplitAtDash(b, c + " - " + e);
    SplitAtDash(c, e);
    SplitNoSpace(e);
    assert SplitSpaces(Render(d)) == [a, "-", b, "-", c, "-", e];
    DropPrefixedTag("id:", Show(d.id));
    DropPrefixedTag("client_id:", Show(d.clientId));
    DropPrefixedTag("session_id:", Show(d.sessionId));
    DropPrefixedTag("path:", Show(d.path));
  }
}
