/**
 * `highlightCode`: syntax-highlight a log or JSON text to HTML, memoised in a
 * process-wide map keyed by the text. The highlighter itself is a parameter.
 */
module Highlight {
  import opened Wrappers
  import opened Text

  datatype Language = Log | Json

  /** The highlighter's `codeToHtml` with the fixed themes and transformers. */
  type Renderer = (string, Language) -> string

  /** `formatCode`: every tab becomes two spaces. */
  function FormatCode(code: string): (r: string)
    ensures '\t' !in r
    ensures '\t' !in code ==> r == code
  {
    ReplaceChar(code, '\t', "  ")
  }

  /** Formatting only widens tabs: each adds one character, and it works piece by piece. */
  lemma {:induction false} FormatCodeLength(code: string)
    ensures |FormatCode(code)| == |code| + Count(code, '\t')
  {
    ReplaceCharLength(code, '\t', "  ");
  }

  lemma {:induction false} FormatCodeAppend(a: string, b: string)
    ensures FormatCode(a + b) == FormatCode(a) + FormatCode(b)
  {
    ReplaceCharAppend(a, b, '\t', "  ");
  }

  /**
   * The call as a function of the cache: a stored non-empty HTML is returned
   * as is; anything else renders the formatted text and stores the result under
   * the original text. Returns the HTML, the new cache, and whether the
   * highlighter ran.
   */
  function Highlight(cache: map<string, string>, code: string, language: Option<Language>, render: Renderer)
    : (string, map<string, string>, bool)
  {
    if code in cache && cache[code] != "" then (cache[code], cache, false)
    else
      var html := render(FormatCode(code), language.GetOr(Log));
      (html, cache[code := html], true)
  }

  /** The module-level cache. */
  class HighlightCache {
    var entries: map<string, string>

    constructor ()
      ensures entries == map[]
    {
      entries := map[];
    }

    /** `highlightCode(code, language)`; `rendered` tells whether the highlighter was called. */
    method HighlightCode(code: string, language: Option<Language>, render: Renderer) returns (html: string, rendered: bool)
      modifies this
      ensures (html, entries, rendered) == Highlight(old(entries), code, language, render)
      ensures old(entries).Keys <= entries.Keys
    {
      if code in entries {
        var cached := entries[code];
        if cached != "" {
          return cached, false;
        }
      }
      html := render(FormatCode(code), language.GetOr(Log));
      entries := entries[code := html];
      rendered := true;
    }
  }

  /** A hit returns the stored HTML without rendering and leaves the cache alone. */
  lemma {:induction false} HitSkipsRenderer(cache: map<string, string>, code: string, language: Option<Language>, render: Renderer)
    requires code in cache && cache[code] != ""
    ensures Highlight(cache, code, language, render) == (cache[code], cache, false)
  {
  }

  /**
   * The cache only grows: after any call every old key is still present, and
   * only the entry of the requested text may change (when it was empty or missing).
   */
  lemma {:induction false} CacheOnlyGrows(cache: map<string, string>, code: string, language: Option<Language>, render: Renderer)
    ensures cache.Keys <= Highlight(cache, code, language, render).1.Keys
    ensures Highlight(cache, code, language, render).1.Keys == cache.Keys + {code}
    ensures forall k :: k in cache && k != code ==> Highlight(cache, code, language, render).1[k] == cache[k]
    ensures Highlight(cache, code, language, render).1[code] == Highlight(cache, code, language, render).0
  {
  }

  /**
   * The key ignores the language: once a text has been rendered to non-empty
   * HTML, asking again in any language returns that same HTML.
   */
  lemma {:induction false} SecondCallReturnsFirstHtml(cache: map<string, string>, code: string, first: Option<Language>,
                                   second: Option<Language>, render: Renderer)
    requires Highlight(cache, code, first, render).0 != ""
    ensures var (html, cache1, _) := Highlight(cache, code, first, render);
            Highlight(cache1, code, second, render) == (html, cache1, false)
  {
  }

  /** An empty stored HTML counts as a miss: the highlighter runs again. */
  lemma {:induction false} EmptyEntryIsMiss(cache: map<string, string>, code: string, language: Option<Language>, render: Renderer)
    requires code in cache && cache[code] == ""
    ensures Highlight(cache, code, language, render).2
    ensures Highlight(cache, code, language, render).0 == render(FormatCode(code), language.GetOr(Log))
  {
  }
}
