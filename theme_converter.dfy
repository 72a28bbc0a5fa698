/**
 * Theme template synthesiser (src/utils/wordpress/themeConverter.ts).
 *
 * The conversion entry point builds its three artifacts from the component name alone:
 * it never reads `code` or `dependencies`, and it does not run the code analyser.
 */
module ThemeConverter {
  import opened Wrappers
  import opened JsString

  /** The component handed to the converter. */
  datatype ComponentData = ComponentData(name: string, code: string, dependencies: seq<string>)

  datatype ConversionResult = ConversionResult(
    phpCode: string,
    cssCode: string,
    functionsCode: string,
    errors: seq<string>)

  /** The message the entry point rethrows any assembly failure with. */
  const CONVERSION_ERROR := "Kunne ikke konvertere komponenten"

  /** The CSS class shared by the page template and the stylesheet. */
  function ClassName(name: string): (r: string)
    ensures "component-" <= r && |r| == |name| + 10
    ensures forall i :: 10 <= i < |r| ==> r[i] == LowerChar(name[i - 10])
    ensures NoUpper(r)
  {
    var r := "component-" + ToLower(name);
    assert forall i :: 10 <= i < |r| ==> r[i] == ToLower(name)[i - 10];
    r
  }

  /** Names that differ only in case share one class. */
  lemma ClassNameIgnoresCase(name: string)
    ensures ClassName(ToLower(name)) == ClassName(name)
  {
    ToLowerIdempotent(name);
  }

  /** The PHP function that enqueues the stylesheet. */
  function RegisterFunctionName(name: string): string {
    "register_" + ToLower(name) + "_scripts"
  }

  // The template literals, cut at their interpolations and at the fragments the lemmas
  // below locate. Each template starts with a line break and ends with a line break and
  // two spaces, which `trim` removes.
  const PHP_OPEN := "<?php\n/* Generated from React component: "
  const PHP_CLOSE_COMMENT := " */\n"
  const GET_HEADER := "get_header();"
  const PHP_BEFORE_DIV := "\n?>\n\n"
  const DIV_OPEN := "<div class=\""
  const DIV_OPEN_END := "\">"
  const PHP_BODY := "\n  <?php\n    // Component logic will be implemented here\n    // This is a basic template structure\n  ?>\n</div>\n\n"
  const GET_FOOTER_LINE := "<?php get_footer(); ?>"
  const CSS_OPEN := "/* Generated styles for "
  const CSS_BEFORE_SELECTOR := " */\n"
  const CSS_RULE_OPEN := " {"
  const CSS_RULE_BODY := "\n  /* Styles will be generated here */\n}"
  const FUNCTIONS_OPEN := "<?php\n// Generated functions for "
  const FUNCTION_KEYWORD := "\nfunction "
  const FUNCTION_PARAMS := "() {"
  const ENQUEUE_STYLE := "\n    wp_enqueue_style('"
  const STYLE_SUFFIX := "-styles', "
  const TEMPLATE_URI := "get_template_directory_uri() . '"
  const CSS_DIR := "/assets/css/"
  const CSS_EXT := ".css')"
  const FUNCTION_END := ";\n}\n"
  const ADD_ACTION := "add_action('wp_enqueue_scripts', '"
  const ADD_ACTION_END := "');"

  /** The pieces of the page template between the white space `trim` removes. */
  function PhpPieces(name: string): seq<string> {
    [PHP_OPEN, name, PHP_CLOSE_COMMENT, GET_HEADER, PHP_BEFORE_DIV,
     DIV_OPEN, ClassName(name), DIV_OPEN_END, PHP_BODY, GET_FOOTER_LINE]
  }

  /** `generatePHPTemplate`: the page wrapper, trimmed. */
  function GeneratePHPTemplate(data: ComponentData): (r: string)
    ensures Trimmed(r)
  {
    Trim("\n" + Concat(PhpPieces(data.name)) + "\n  ")
  }

  function CssPieces(name: string): seq<string> {
    [CSS_OPEN, name, CSS_BEFORE_SELECTOR, ".", ClassName(name), CSS_RULE_OPEN, CSS_RULE_BODY]
  }

  /** `generateCSS`: one empty rule for the component's class, trimmed. */
  function GenerateCSS(data: ComponentData): (r: string)
    ensures Trimmed(r)
  {
    Trim("\n" + Concat(CssPieces(data.name)) + "\n  ")
  }

  function FunctionsPieces(name: string): seq<string> {
    var lower := ToLower(name);
    [FUNCTIONS_OPEN, name, FUNCTION_KEYWORD, RegisterFunctionName(name), FUNCTION_PARAMS,
     ENQUEUE_STYLE, lower, STYLE_SUFFIX, TEMPLATE_URI, CSS_DIR, lower, CSS_EXT, FUNCTION_END,
     ADD_ACTION, RegisterFunctionName(name), ADD_ACTION_END]
  }

  /** `generateFunctionsPhp`: the stylesheet registration stub, trimmed. */
  function GenerateFunctionsPhp(data: ComponentData): (r: string)
    ensures Trimmed(r)
  {
    Trim("\n" + Concat(FunctionsPieces(data.name)) + "\n  ")
  }

  /**
   * `convertReactToWordPress`. The three generators are string interpolation over a
   * string name and cannot fail here, so the catch branch that rethrows CONVERSION_ERROR
   * is never taken and every result is a success with no errors.
   */
  function ConvertReactToWordPress(data: ComponentData): (r: Result<ConversionResult>)
    ensures r.Success? && r.value.errors == []
  {
    Success(ConversionResult(
      GeneratePHPTemplate(data),
      GenerateCSS(data),
      GenerateFunctionsPhp(data),
      []))
  }

  /** The artifacts depend on the name only: the code, even unparseable, and the dependencies are never read. */
  lemma ConvertDependsOnlyOnName(a: ComponentData, b: ComponentData)
    requires a.name == b.name
    ensures ConvertReactToWordPress(a) == ConvertReactToWordPress(b)
  {
  }

  /** The page template is its pieces without the surrounding white space. */
  lemma PhpTrimmed(data: ComponentData)
    ensures GeneratePHPTemplate(data) == Concat(PhpPieces(data.name))
  {
    TrimTemplate("\n", PhpPieces(data.name), "\n  ");
  }

  /** The stylesheet is its pieces without the surrounding white space. */
  lemma CssTrimmed(data: ComponentData)
    ensures GenerateCSS(data) == Concat(CssPieces(data.name))
  {
    TrimTemplate("\n", CssPieces(data.name), "\n  ");
  }

  /** The registration stub is its pieces without the surrounding white space. */
  lemma FunctionsTrimmed(data: ComponentData)
    ensures GenerateFunctionsPhp(data) == Concat(FunctionsPieces(data.name))
  {
    TrimTemplate("\n", FunctionsPieces(data.name), "\n  ");
  }

  /** The page template opens with `<?php` and the header comment naming the raw component name. */
  lemma PhpTemplateOpening(data: ComponentData)
    ensures "<?php\n/* Generated from React component: " + data.name + " */\n" <= GeneratePHPTemplate(data)
  {
    PhpTrimmed(data);
    var parts := PhpPieces(data.name);
    assert parts[..3] == [PHP_OPEN, data.name, PHP_CLOSE_COMMENT];
    Concat3(PHP_OPEN, data.name, PHP_CLOSE_COMMENT);
    ConcatPrefix(parts, 3);
  }

  /** The page template ends with the footer call. */
  lemma PhpTemplateClosing(data: ComponentData)
    ensures EndsWith(GeneratePHPTemplate(data), "<?php get_footer(); ?>")
  {
    PhpTrimmed(data);
    var parts := PhpPieces(data.name);
    assert parts[9..] == [GET_FOOTER_LINE];
    ConcatOne(GET_FOOTER_LINE);
    ConcatSuffix(parts, 9);
  }

  /** The component's div comes after `get_header();` and before the footer call. */
  lemma PhpTemplateOrder(data: ComponentData)
    ensures InOrder(GeneratePHPTemplate(data),
      "get_header();", "<div class=\"" + ClassName(data.name) + "\">", "<?php get_footer(); ?>")
  {
    PhpTrimmed(data);
    PhpPiecesInOrder(data.name);
  }

  lemma PhpPiecesInOrder(name: string)
    ensures InOrder(Concat(PhpPieces(name)), GET_HEADER, DIV_OPEN + ClassName(name) + DIV_OPEN_END, GET_FOOTER_LINE)
  {
    ConcatInOrder(PhpPieces(name), 3, 5, 9);
  }

  /** The stylesheet is one rule, opened by the generated-styles comment and selecting the component's class. */
  lemma CssTemplateLayout(data: ComponentData)
    ensures GenerateCSS(data)
      == ("/* Generated styles for " + data.name + " */\n") + ("." + ClassName(data.name) + " {" + "\n  /* Styles will be generated here */\n}")
  {
    CssTrimmed(data);
    CssPiecesLayout(data.name);
  }

  lemma CssPiecesLayout(name: string)
    ensures Concat(CssPieces(name)) == (CSS_OPEN + name + CSS_BEFORE_SELECTOR) + ("." + ClassName(name) + CSS_RULE_OPEN + CSS_RULE_BODY)
  {
    ConcatSplit(CssPieces(name), 3);
    CssHead(name);
    CssTail(name);
  }

  lemma CssHead(name: string)
    ensures Concat(CssPieces(name)[..3]) == CSS_OPEN + name + CSS_BEFORE_SELECTOR
  {
    assert CssPieces(name)[..3] == [CSS_OPEN, name, CSS_BEFORE_SELECTOR];
    Concat3(CSS_OPEN, name, CSS_BEFORE_SELECTOR);
  }

  lemma CssTail(name: string)
    ensures Concat(CssPieces(name)[3..]) == "." + ClassName(name) + CSS_RULE_OPEN + CSS_RULE_BODY
  {
    assert CssPieces(name)[3..] == [".", ClassName(name), CSS_RULE_OPEN, CSS_RULE_BODY];
    Concat4(".", ClassName(name), CSS_RULE_OPEN, CSS_RULE_BODY);
  }

  /** The class the stylesheet selects is the class the page template's div carries. */
  lemma SharedClassName(data: ComponentData)
    ensures Contains(GeneratePHPTemplate(data), "<div class=\"" + ClassName(data.name) + "\">")
    ensures Contains(GenerateCSS(data), "." + ClassName(data.name) + " {")
  {
    PhpTrimmed(data);
    CssTrimmed(data);
    PhpPiecesDiv(data.name);
    CssPiecesSelector(data.name);
  }

  lemma PhpPiecesDiv(name: string)
    ensures Contains(Concat(PhpPieces(name)), DIV_OPEN + ClassName(name) + DIV_OPEN_END)
  {
    ConcatPieces3(PhpPieces(name), 5);
  }

  lemma CssPiecesSelector(name: string)
    ensures Contains(Concat(CssPieces(name)), "." + ClassName(name) + CSS_RULE_OPEN)
  {
    ConcatPieces3(CssPieces(name), 3);
  }

  /** The registration stub opens with `<?php` and the comment naming the raw component name. */
  lemma FunctionsTemplateOpening(data: ComponentData)
    ensures "<?php\n// Generated functions for " + data.name <= GenerateFunctionsPhp(data)
  {
    FunctionsTrimmed(data);
    var parts := FunctionsPieces(data.name);
    assert parts[..2] == [FUNCTIONS_OPEN, data.name];
    Concat2(FUNCTIONS_OPEN, data.name);
    ConcatPrefix(parts, 2);
  }

  /**
   * The registration stub defines `register_<lower>_scripts` and enqueues the handle
   * `<lower>-styles` from `/assets/css/<lower>.css`, where `<lower>` is the lower-cased name.
   */
  lemma FunctionsTemplateEnqueue(data: ComponentData)
    ensures var fc := GenerateFunctionsPhp(data);
      && var lower := ToLower(data.name);
      && Contains(fc, "\nfunction " + RegisterFunctionName(data.name) + "() {")
      && Contains(fc, "\n    wp_enqueue_style('" + lower + "-styles', ")
      && Contains(fc, "/assets/css/" + lower + ".css')")
  {
    FunctionsTrimmed(data);
    FunctionsPiecesEnqueue(data.name);
  }

  lemma FunctionsPiecesEnqueue(name: string)
    ensures var fc := Concat(FunctionsPieces(name));
      && Contains(fc, FUNCTION_KEYWORD + RegisterFunctionName(name) + FUNCTION_PARAMS)
      && Contains(fc, ENQUEUE_STYLE + ToLower(name) + STYLE_SUFFIX)
      && Contains(fc, CSS_DIR + ToLower(name) + CSS_EXT)
  {
    var parts := FunctionsPieces(name);
    ConcatPieces3(parts, 2);
    ConcatPieces3(parts, 5);
    ConcatPieces3(parts, 9);
  }

  /** The registration stub ends by hooking that same function into `wp_enqueue_scripts`. */
  lemma FunctionsTemplateClosing(data: ComponentData)
    ensures EndsWith(GenerateFunctionsPhp(data),
      "add_action('wp_enqueue_scripts', '" + RegisterFunctionName(data.name) + "');")
  {
    FunctionsTrimmed(data);
    var parts := FunctionsPieces(data.name);
    assert parts[13..] == [ADD_ACTION, RegisterFunctionName(data.name), ADD_ACTION_END];
    Concat3(ADD_ACTION, RegisterFunctionName(data.name), ADD_ACTION_END);
    ConcatSuffix(parts, 13);
  }
}
