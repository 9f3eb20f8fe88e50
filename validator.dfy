/** Input checks shared by the chat surfaces: the chat-message schema, the
    markup scrubber applied before text reaches the language model, and the
    API-key shape test. */
module Validator {
  import opened Common

  // ---------------------------------------------------------------------
  // validateChatMessage

  /** The parsed request body: something that is not an object, or an object
      with an optional `message` property and the names of its other
      properties in insertion order. */
  datatype ChatBody = NotAnObject | ChatObject(message: Option<JsValue>, otherKeys: seq<string>)

  const MaxMessageLength: nat := 4000
  const EmptyDetail: string := "\"message\" is not allowed to be empty"
  const TooLongDetail: string := "\"message\" length must be less than or equal to 4000 characters long"

  /** The first failure the schema `{ message: string().trim().min(1).max(4000).required() }`
      reports, in the schema library's wording, or None when the body passes.
      The library trims first, rejects the empty result, then checks the
      maximum length; properties other than `message` are refused after
      `message` itself has passed. */
  function SchemaError(body: ChatBody): (e: Option<string>)
    ensures body.ChatObject? && body.message.Some? && body.message.value.JsString? ==>
              (e.None? <==> 1 <= |Trim(body.message.value.s)| <= MaxMessageLength && body.otherKeys == [])
  {
    match body
    case NotAnObject => Some("\"value\" must be of type object")
    case ChatObject(m, others) =>
      match m
      case None => Some("\"message\" is required")
      case Some(v) =>
        if !v.JsString? then Some("\"message\" must be a string")
        else if Trim(v.s) == "" then Some(EmptyDetail)
        else if |Trim(v.s)| > MaxMessageLength then
          Some(TooLongDetail)
        else if others != [] then Some("\"" + others[0] + "\" is not allowed")
        else None
  }

  /** `validateChatMessage`: the validated (trimmed) message, or an error
      whose message starts with "Invalid message: ". */
  function ValidateChatMessage(body: ChatBody): (r: Result<string>)
    ensures r.Ok? <==> body.ChatObject? && body.message.Some? && body.message.value.JsString?
                       && 1 <= |Trim(body.message.value.s)| <= MaxMessageLength && body.otherKeys == []
    ensures r.Ok? ==> r.value == Trim(body.message.value.s) && IsTrimmed(r.value)
    ensures r.Err? ==> |r.error| >= |"Invalid message: "| && r.error[..|"Invalid message: "|] == "Invalid message: "
  {
    match SchemaError(body)
    case Some(detail) => Err("Invalid message: " + detail)
    case None => Ok(Trim(body.message.value.s))
  }

  /** The cases of the validator's tests: a plain message passes unchanged,
      the empty message, a whitespace-only message and a 4001-character
      message are refused. */
  lemma AcceptsPlainMessage()
    ensures ValidateChatMessage(ChatObject(Some(JsString("Hello, how can you help me?")), [])) == Ok("Hello, how can you help me?")
  {
    var ok := "Hello, how can you help me?";
    assert IsTrimmed(ok);
    TrimOfTrimmed(ok);
  }

  lemma RejectsEmptyMessage()
    ensures ValidateChatMessage(ChatObject(Some(JsString("")), [])) == Err("Invalid message: " + EmptyDetail)
  {
    assert Trim("") == "";
    assert SchemaError(ChatObject(Some(JsString("")), [])) == Some(EmptyDetail);
  }

  lemma RejectsWhitespaceOnlyMessage()
    ensures ValidateChatMessage(ChatObject(Some(JsString("  \t ")), [])) == Err("Invalid message: " + EmptyDetail)
  {
    var ws := "  \t ";
    TrimOfWhitespace(ws);
    assert SchemaError(ChatObject(Some(JsString(ws)), [])) == Some(EmptyDetail);
  }

  lemma RejectsOverlongMessage()
    ensures ValidateChatMessage(ChatObject(Some(JsString(seq(4001, _ => 'a'))), [])).Err?
  {
    var long: string := seq(4001, _ => 'a');
    assert IsTrimmed(long);
    TrimOfTrimmed(long);
    assert |Trim(long)| > MaxMessageLength;
  }

  // ---------------------------------------------------------------------
  // sanitizeText

  const ScriptOpen: string := "<script"
  const ScriptClose: string := "</script>"
  const JavascriptScheme: string := "javascript:"

  /** The first index at or after `from` where `pat` occurs, ignoring case. */
  function FindIgnoreCase(s: string, from: nat, pat: string): (r: Option<nat>)
    decreases |s| - from
    ensures r.Some? ==> from <= r.value && StartsWithIgnoreCase(s, r.value, pat)
    ensures r.Some? ==> forall j :: from <= j < r.value ==> !StartsWithIgnoreCase(s, j, pat)
    ensures r.None? ==> forall j :: from <= j ==> !StartsWithIgnoreCase(s, j, pat)
  {
    if from + |pat| > |s| then None
    else if StartsWithIgnoreCase(s, from, pat) then Some(from)
    else FindIgnoreCase(s, from + 1, pat)
  }

  /** The end of a match of `<script\b[^<]*(?:(?!<\/script>)<[^<]*)*<\/script>`
      starting at `i`: the opening word `<script` not followed by a word
      character, then everything up to and including the first closing tag. */
  function ScriptMatchEnd(s: string, i: nat): (r: Option<nat>)
    ensures r.Some? ==> i + |ScriptOpen| + |ScriptClose| <= r.value <= |s|
    ensures r.Some? ==> StartsWithIgnoreCase(s, i, ScriptOpen) && StartsWithIgnoreCase(s, r.value - |ScriptClose|, ScriptClose)
  {
    if !StartsWithIgnoreCase(s, i, ScriptOpen) then None
    else if i + |ScriptOpen| < |s| && IsWordChar(s[i + |ScriptOpen|]) then None
    else
      match FindIgnoreCase(s, i + |ScriptOpen|, ScriptClose)
      case None => None
      case Some(j) => Some(j + |ScriptClose|)
  }

  /** The first replace: every script element removed, scanning left to right
      from `i` as a global regular-expression replace does. */
  function RemoveScripts(s: string, i: nat): (r: string)
    requires i <= |s|
    decreases |s| - i
    ensures |r| <= |s| - i
    ensures (forall j :: i <= j < |s| ==> ScriptMatchEnd(s, j).None?) ==> r == s[i..]
  {
    if i == |s| then ""
    else
      match ScriptMatchEnd(s, i)
      case Some(e) => RemoveScripts(s, e)
      case None => [s[i]] + RemoveScripts(s, i + 1)
  }

  /** The second replace: every `javascript:` removed, ignoring case. */
  function RemoveScheme(s: string, i: nat): (r: string)
    requires i <= |s|
    decreases |s| - i
    ensures |r| <= |s| - i
    ensures (forall j :: i <= j < |s| ==> !StartsWithIgnoreCase(s, j, JavascriptScheme)) ==> r == s[i..]
  {
    if i == |s| then ""
    else if StartsWithIgnoreCase(s, i, JavascriptScheme) then RemoveScheme(s, i + |JavascriptScheme|)
    else [s[i]] + RemoveScheme(s, i + 1)
  }

  /** From `k`, the index after the longest run of characters satisfying the
      word (`word`) or whitespace (`!word`) class. */
  function RunEnd(s: string, k: nat, word: bool): (e: nat)
    requires k <= |s|
    decreases |s| - k
    ensures k <= e <= |s|
    ensures forall j :: k <= j < e ==> (if word then IsWordChar(s[j]) else IsJsWhitespace(s[j]))
    ensures e < |s| ==> !(if word then IsWordChar(s[e]) else IsJsWhitespace(s[e]))
  {
    if k == |s| then k
    else if (if word then IsWordChar(s[k]) else IsJsWhitespace(s[k])) then RunEnd(s, k + 1, word)
    else k
  }

  /** The end of a match of `on\w+\s*=` starting at `i`.  Because `=` is
      neither a word nor a space character, the greedy runs never need to
      give anything back. */
  function HandlerMatchEnd(s: string, i: nat): (r: Option<nat>)
    requires i <= |s|
    ensures r.Some? ==> i + 4 <= r.value <= |s| && StartsWithIgnoreCase(s, i, "on") && s[r.value - 1] == '='
  {
    if !StartsWithIgnoreCase(s, i, "on") then None
    else if i + 2 == |s| || !IsWordChar(s[i + 2]) then None
    else
      var w := RunEnd(s, i + 2, true);
      var sp := RunEnd(s, w, false);
      if sp < |s| && s[sp] == '=' then Some(sp + 1) else None
  }

  /** The third replace: every event-handler prefix such as `onclick =`
      removed. */
  function RemoveHandlers(s: string, i: nat): (r: string)
    requires i <= |s|
    decreases |s| - i
    ensures |r| <= |s| - i
    ensures (forall j :: i <= j < |s| ==> HandlerMatchEnd(s, j).None?) ==> r == s[i..]
  {
    if i == |s| then ""
    else
      match HandlerMatchEnd(s, i)
      case Some(e) => RemoveHandlers(s, e)
      case None => [s[i]] + RemoveHandlers(s, i + 1)
  }

  /** `sanitizeText`: "" for anything that is not a string; otherwise the
      three removals in order, then trim.  The result never has leading or
      trailing whitespace and is never longer than the input. */
  function SanitizeText(text: JsValue): (r: string)
    ensures !text.JsString? ==> r == ""
    ensures IsTrimmed(r)
    ensures text.JsString? ==> |r| <= |text.s|
  {
    match text
    case JsString(s) =>
      var a := RemoveScripts(s, 0);
      var b := RemoveScheme(a, 0);
      var c := RemoveHandlers(b, 0);
      Trim(c)
    case _ => ""
  }

  /** The validator test: a script element in front of the text disappears. */
  lemma SanitizeScriptExample()
    ensures SanitizeText(JsString("<script>alert(\"xss\")</script>Hello")) == "Hello"
  {
    var s := "<script>alert(\"xss\")</script>Hello";
    ScriptElementRemoved(s);
    var h := "Hello";
    NothingElseToRemove(h);
    assert IsTrimmed(h);
    TrimOfTrimmed(h);
  }

  lemma ScriptElementRemoved(s: string)
    requires s == "<script>alert(\"xss\")</script>Hello"
    ensures RemoveScripts(s, 0) == "Hello"
  {
    assert ScriptMatchEnd(s, 0) == Some(29) by {
      OpeningTagFound(s);
      ClosingTagFound(s);
    }
    forall j | 29 <= j < |s| ensures ScriptMatchEnd(s, j).None? {
      assert j + 7 > |s|;
    }
    assert s[29..] == "Hello";
  }

  lemma OpeningTagFound(s: string)
    requires s == "<script>alert(\"xss\")</script>Hello"
    ensures StartsWithIgnoreCase(s, 0, ScriptOpen) && !IsWordChar(s[|ScriptOpen|])
  {
    forall k | 0 <= k < |ScriptOpen| ensures CharEqIgnoreCase(s[k], ScriptOpen[k]) {
      assert s[k] == ScriptOpen[k];
    }
  }

  lemma ClosingTagFound(s: string)
    requires s == "<script>alert(\"xss\")</script>Hello"
    ensures FindIgnoreCase(s, 7, ScriptClose) == Some(20)
  {
    assert StartsWithIgnoreCase(s, 20, ScriptClose);
    forall j | 7 <= j < 20 ensures !StartsWithIgnoreCase(s, j, ScriptClose) {
      assert !CharEqIgnoreCase(s[j], ScriptClose[0]) || !CharEqIgnoreCase(s[j + 1], ScriptClose[1]);
    }
  }

  lemma NothingElseToRemove(h: string)
    requires h == "Hello"
    ensures RemoveHandlers(RemoveScheme(h, 0), 0) == h
  {
    forall j | 0 <= j < |h| ensures !StartsWithIgnoreCase(h, j, JavascriptScheme) {
      assert j + |JavascriptScheme| > |h|;
    }
    assert RemoveScheme(h, 0) == h;
    forall j | 0 <= j < |h| ensures HandlerMatchEnd(h, j).None? {
      if j < 4 { assert !CharEqIgnoreCase(h[j], 'o') || !CharEqIgnoreCase(h[j + 1], 'n'); }
    }
  }

  // ---------------------------------------------------------------------
  // isValidApiKey

  /** Trimming leaves a string unchanged exactly when it has no outer
      whitespace. */
  lemma TrimFixpoint(s: string)
    ensures Trim(s) == s <==> IsTrimmed(s)
  {
    if IsTrimmed(s) { TrimOfTrimmed(s); }
  }

  /** `isValidApiKey`: a string longer than ten characters with no leading or
      trailing whitespace. */
  function IsValidApiKey(key: JsValue): (ok: bool)
    ensures ok <==> key.JsString? && |key.s| > 10 && IsTrimmed(key.s)
  {
    TrimFixpoint(if key.JsString? then key.s else "");
    key.JsString? && |key.s| > 10 && Trim(key.s) == key.s
  }

  /** The validator test's keys. */
  lemma ApiKeyExamples()
    ensures IsValidApiKey(JsString("sk-1234567890abcdef"))
    ensures !IsValidApiKey(JsString("short"))
    ensures !IsValidApiKey(JsNull)
    ensures !IsValidApiKey(JsString(""))
  {
    var k := "sk-1234567890abcdef";
    assert IsTrimmed(k);
  }
}
