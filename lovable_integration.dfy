/**
 * The simulated Lovable.dev client (src/utils/wordpress/lovableIntegration.ts).
 *
 * Each operation returns a fixed or computed response after a simulated delay. The delay,
 * the console logging and the toasts are not modelled. Each operation's try block can only
 * fail through the environment (the timer, the logger, the toast library), so that failure
 * is a parameter: `None` when nothing is thrown, `Some(t)` for the value `t` thrown. The
 * configuration the class is constructed with is never read, and the design specification
 * is passed through untouched, so both are left abstract (the type parameter `Spec`).
 */
module LovableIntegration {
  import opened Wrappers
  import opened JsString

  /** A thrown value: an `Error` object with its message, or anything else. */
  datatype Thrown = ErrorObject(message: string) | NonError

  /** `LovableResponse<T>`. */
  datatype LovableResponse<T> = LovableResponse(data: T, success: bool, message: Option<string>)

  datatype DesignRequest<Spec> = DesignRequest(title: string, description: string, designSpec: Spec)

  datatype ComponentGenerationRequest<Spec> = ComponentGenerationRequest(
    componentName: string,
    description: string,
    designSpec: Spec,
    dependencies: Option<seq<string>>)

  /** `error instanceof Error ? error.message : "Ukjent feil"`. */
  function FailureMessage(t: Thrown): string {
    match t
    case ErrorObject(message) => message
    case NonError => "Ukjent feil"
  }

  /** The catch branch's response: not a success, an empty data field, and the message. */
  function FailureResponse<T>(empty: T, t: Thrown): LovableResponse<T> {
    LovableResponse(empty, false, Some(FailureMessage(t)))
  }

  // ---- The project slug ----

  /**
   * `s.replace(/\s+/g, '-')`, scanning left to right: each maximal run of white space becomes
   * one `-`. `inRun` says that the character before `s` was white space already replaced.
   */
  function ReplaceRuns(s: string, inRun: bool): (r: string)
    ensures NoSpace(r)
    ensures !inRun && s != [] && IsSpace(s[0]) ==> r != [] && r[0] == '-'
    ensures s != [] && !IsSpace(s[0]) ==> r != [] && r[0] == s[0]
  {
    if s == [] then []
    else if IsSpace(s[0]) then (if inRun then [] else "-") + ReplaceRuns(s[1..], true)
    else [s[0]] + ReplaceRuns(s[1..], false)
  }

  /** A string without white space is left as it is. */
  lemma {:induction false} ReplaceRunsOfSpaceless(s: string)
    requires NoSpace(s)
    ensures ReplaceRuns(s, false) == s
  {
    if s != [] {
      assert NoSpace(s[1..]) by {
        forall i | 0 <= i < |s| - 1 ensures !IsSpace(s[1..][i]) {
          assert s[1..][i] == s[i + 1];
        }
      }
      ReplaceRunsOfSpaceless(s[1..]);
      assert [s[0]] + s[1..] == s;
    }
  }

  /** Every character of the result is one of the input or `-`, so no upper case appears. */
  lemma {:induction false} ReplaceRunsNoUpper(s: string, inRun: bool)
    requires NoUpper(s)
    ensures NoUpper(ReplaceRuns(s, inRun))
  {
    if s != [] {
      var rest := s[1..];
      assert NoUpper(rest) by {
        forall i | 0 <= i < |rest| ensures !IsUpper(rest[i]) {
          assert rest[i] == s[i + 1];
        }
      }
      ReplaceRunsNoUpper(rest, IsSpace(s[0]));
      var tail := ReplaceRuns(rest, IsSpace(s[0]));
      var r := ReplaceRuns(s, inRun);
      var head: string := if IsSpace(s[0]) then (if inRun then [] else "-") else [s[0]];
      assert forall i :: 0 <= i < |head| ==> !IsUpper(head[i]);
      assert r == head + tail;
      forall i | 0 <= i < |r| ensures !IsUpper(r[i]) {
        if i < |head| {
          assert r[i] == head[i];
        } else {
          assert r[i] == tail[i - |head|];
        }
      }
    }
  }

  /** A string ending in white space is replaced into one ending in `-`, unless nothing is left. */
  lemma {:induction false} ReplaceRunsTrailing(s: string, inRun: bool)
    requires s != [] && IsSpace(s[|s| - 1])
    ensures var r := ReplaceRuns(s, inRun); r != [] ==> r[|r| - 1] == '-'
  {
    var rest := s[1..];
    if rest != [] {
      assert rest[|rest| - 1] == s[|s| - 1];
      ReplaceRunsTrailing(rest, IsSpace(s[0]));
    }
  }

  /**
   * Text ending in a non-space character closes any run, so what follows is replaced afresh;
   * only through an empty prefix is the scan's state carried over.
   */
  lemma {:induction false} ReplaceRunsAppend(a: string, b: string, inRun: bool)
    requires a == [] || !IsSpace(a[|a| - 1])
    ensures ReplaceRuns(a + b, inRun) == ReplaceRuns(a, inRun) + ReplaceRuns(b, inRun && a == [])
  {
    if a == [] {
      assert a + b == b;
    } else {
      assert (a + b)[0] == a[0];
      assert (a + b)[1..] == a[1..] + b;
      if |a| > 1 {
        assert a[1..][|a| - 2] == a[|a| - 1];
      }
      ReplaceRunsAppend(a[1..], b, IsSpace(a[0]));
    }
  }

  /** A whole run of white space yields at most one `-`, and leaves the scan inside a run. */
  lemma {:induction false} ReplaceRunsSpaces(ws: string, y: string, inRun: bool)
    requires ws != [] && AllSpace(ws)
    ensures ReplaceRuns(ws + y, inRun) == (if inRun then "" else "-") + ReplaceRuns(y, true)
  {
    assert (ws + y)[0] == ws[0];
    assert (ws + y)[1..] == ws[1..] + y;
    if |ws| > 1 {
      assert forall i :: 0 <= i < |ws| - 1 ==> ws[1..][i] == ws[i + 1];
      ReplaceRunsSpaces(ws[1..], y, true);
    }
  }

  /** Only a leading run depends on whether the scan is inside one. */
  lemma ReplaceRunsWordStart(y: string)
    requires y == [] || !IsSpace(y[0])
    ensures ReplaceRuns(y, true) == ReplaceRuns(y, false)
  {
  }

  /**
   * The run-collapse promise of `/\s+/g`: white space between two non-space neighbours, however
   * long, becomes exactly one `-`.
   */
  lemma ReplaceRunsCollapse(x: string, ws: string, y: string)
    requires x == [] || !IsSpace(x[|x| - 1])
    requires ws != [] && AllSpace(ws)
    requires y == [] || !IsSpace(y[0])
    ensures ReplaceRuns(x + ws + y, false) == ReplaceRuns(x, false) + "-" + ReplaceRuns(y, false)
  {
    var head, tail := ReplaceRuns(x, false), ReplaceRuns(y, false);
    ConcatAssociative(x, ws, y);
    ReplaceRunsAppend(x, ws + y, false);
    ReplaceRunsWordStart(y);
    ReplaceRunsSpaces(ws, y, false);
    ConcatAssociative(head, "-", tail);
  }

  /** The project slug: the title lower-cased, white space runs joined into `-`. */
  function Slug(title: string): (r: string)
    ensures NoSpace(r)
  {
    ReplaceRuns(ToLower(title), false)
  }

  /** A lower-case string is its own lower case. */
  lemma ToLowerOfLower(s: string)
    requires NoUpper(s)
    ensures ToLower(s) == s
  {
  }

  /** Leading white space is not trimmed: it becomes a leading `-`. */
  lemma SlugLeadingSpace(title: string)
    requires title != [] && IsSpace(title[0])
    ensures Slug(title) != [] && Slug(title)[0] == '-'
  {
    assert ToLower(title)[0] == LowerChar(title[0]);
  }

  /** Trailing white space is not trimmed either: it becomes a trailing `-`. */
  lemma SlugTrailingSpace(title: string)
    requires title != [] && IsSpace(title[|title| - 1])
    ensures var slug := Slug(title); slug != [] && slug[|slug| - 1] == '-'
  {
    var lower := ToLower(title);
    assert lower[|lower| - 1] == LowerChar(title[|title| - 1]);
    ReplaceRunsTrailing(lower, false);
  }

  /** A title without white space only changes case. */
  lemma SlugOfSpaceless(title: string)
    requires NoSpace(title)
    ensures Slug(title) == ToLower(title)
  {
    var lower := ToLower(title);
    forall i | 0 <= i < |lower| ensures !IsSpace(lower[i]) {
      assert lower[i] == LowerChar(title[i]);
    }
    ReplaceRunsOfSpaceless(lower);
  }

  /** Each white space run between two words of the title becomes a single `-` in the slug. */
  lemma SlugCollapse(x: string, ws: string, y: string)
    requires x == [] || !IsSpace(x[|x| - 1])
    requires ws != [] && AllSpace(ws)
    requires y == [] || !IsSpace(y[0])
    ensures Slug(x + ws + y) == Slug(x) + "-" + Slug(y)
  {
    ToLowerConcat(x, ws);
    ToLowerConcat(x + ws, y);
    var lx, lws, ly := ToLower(x), ToLower(ws), ToLower(y);
    assert lx == [] || !IsSpace(lx[|lx| - 1]) by {
      if x != [] { assert lx[|lx| - 1] == LowerChar(x[|x| - 1]); }
    }
    assert ly == [] || !IsSpace(ly[0]) by {
      if y != [] { assert ly[0] == LowerChar(y[0]); }
    }
    assert AllSpace(lws) by {
      forall i | 0 <= i < |lws| ensures IsSpace(lws[i]) {
        assert lws[i] == LowerChar(ws[i]);
      }
    }
    ReplaceRunsCollapse(lx, lws, ly);
  }

  /** Making a slug of a slug changes nothing. */
  lemma SlugIdempotent(title: string)
    ensures Slug(Slug(title)) == Slug(title)
  {
    var slug := Slug(title);
    assert slug == ReplaceRuns(ToLower(title), false);
    ReplaceRunsNoUpper(ToLower(title), false);
    ToLowerOfLower(slug);
    ReplaceRunsOfSpaceless(slug);
  }

  const PROJECT_URL_PREFIX := "https://lovable.dev/projects/wordpress-"

  /** `createDesignProject`: the project's URL built from the title's slug. */
  function CreateDesignProject<Spec>(request: DesignRequest<Spec>, failure: Option<Thrown>): (r: LovableResponse<string>)
    ensures r.success <==> failure.None?
    ensures r.success ==> r.data == PROJECT_URL_PREFIX + Slug(request.title) && r.message.None?
    ensures r.data != [] <==> r.success
    ensures failure.Some? ==> r.message == Some(FailureMessage(failure.value))
  {
    match failure
    case None => LovableResponse(PROJECT_URL_PREFIX + Slug(request.title), true, None)
    case Some(t) => FailureResponse("", t)
  }

  // ---- The component template ----

  const IMPORT_LINES := "import React from 'react';\n\n"
  const CONST_KEYWORD := "const "
  const ARROW_OPEN := " = () => {"
  const COMPONENT_BODY_OPEN := "\n  return (\n    <div className=\"p-4 bg-white rounded shadow\">\n      <h2 className=\"text-xl font-bold mb-2\">"
  const COMPONENT_BODY_CLOSE := "</h2>\n      <p className=\"text-gray-700\">\n        Dette er en auto-generert komponent basert på design-spesifikasjonen.\n        Farger, typografi og layout vil matche kundens ønsker.\n      </p>\n      <button className=\"mt-4 px-4 py-2 bg-blue-500 text-white rounded hover:bg-blue-600\">\n        Eksempel-knapp\n      </button>\n    </div>\n  );\n};\n\n"
  const EXPORT_DEFAULT := "export default "
  const STATEMENT_END := ";"

  /** The pieces of the component template between the white space `trim` removes. */
  function ComponentPieces(name: string): seq<string> {
    [IMPORT_LINES, CONST_KEYWORD, name, ARROW_OPEN, COMPONENT_BODY_OPEN, name,
     COMPONENT_BODY_CLOSE, EXPORT_DEFAULT, name, STATEMENT_END]
  }

  /** The mock component, trimmed. */
  function ComponentTemplate(name: string): string {
    Trim("\n" + Concat(ComponentPieces(name)) + "\n      ")
  }

  lemma ComponentTemplateTrimmed(name: string)
    ensures ComponentTemplate(name) == Concat(ComponentPieces(name))
  {
    TrimTemplate("\n", ComponentPieces(name), "\n      ");
  }

  /** The layout facts about the pieces themselves. */
  lemma ComponentPiecesLayout(name: string)
    ensures var code := Concat(ComponentPieces(name));
      && code != [] && code[0] == 'i' && code[|code| - 1] == ';'
      && Contains(code, "const " + name + " = () => {")
      && EndsWith(code, "export default " + name + ";")
  {
    var parts := ComponentPieces(name);
    ConcatLastChar(parts);
    ConcatPrefix(parts, 1);
    assert parts[..1] == [IMPORT_LINES];
    ConcatOne(IMPORT_LINES);
    ConcatPieces3(parts, 1);
    assert parts[7..] == [EXPORT_DEFAULT, name, STATEMENT_END];
    Concat3(EXPORT_DEFAULT, name, STATEMENT_END);
    ConcatSuffix(parts, 7);
  }

  /**
   * The generated code is trimmed, declares the component as an arrow function and ends by
   * exporting it by default.
   */
  lemma ComponentTemplateLayout(name: string)
    ensures var code := ComponentTemplate(name);
      && code != [] && !IsSpace(code[0]) && !IsSpace(code[|code| - 1])
      && Contains(code, "const " + name + " = () => {")
      && EndsWith(code, "export default " + name + ";")
  {
    ComponentTemplateTrimmed(name);
    ComponentPiecesLayout(name);
  }

  /** `generateComponent`: the mock component for the requested name. */
  function GenerateComponent<Spec>(request: ComponentGenerationRequest<Spec>, failure: Option<Thrown>): (r: LovableResponse<string>)
    ensures r.success <==> failure.None?
    ensures r.success ==> r.data == ComponentTemplate(request.componentName) && r.message.None?
    ensures !r.success ==> r.data == ""
    ensures failure.Some? ==> r.message == Some(FailureMessage(failure.value))
  {
    match failure
    case None => LovableResponse(ComponentTemplate(request.componentName), true, None)
    case Some(t) => FailureResponse("", t)
  }

  const PREVIEW_URL := "https://lovable.dev/preview/temp-design-12345"

  /** `getLivePreview`: the same fixed preview URL whatever the design specification. */
  function GetLivePreview<Spec>(designSpec: Spec, failure: Option<Thrown>): (r: LovableResponse<string>)
    ensures r.success <==> failure.None?
    ensures r.success ==> r.data == "https://lovable.dev/preview/temp-design-12345"
    ensures !r.success ==> r.data == ""
    ensures failure.Some? ==> r.message == Some(FailureMessage(failure.value))
  {
    match failure
    case None => LovableResponse(PREVIEW_URL, true, None)
    case Some(t) => FailureResponse("", t)
  }

  /** The preview never depends on the design specification. */
  lemma LivePreviewIgnoresSpec<Spec>(a: Spec, b: Spec, failure: Option<Thrown>)
    ensures GetLivePreview(a, failure) == GetLivePreview(b, failure)
  {
  }
}
