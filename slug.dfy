/** Problem slugs to Python module names (engine/utils.py:283-287). */
module Slug {

  /** Python's str.replace for a one-character pattern: every `from` becomes `to`. */
  function ReplaceChar(s: string, from: char, to: char): (r: string)
    ensures |r| == |s|
    ensures forall i :: 0 <= i < |s| ==> r[i] == (if s[i] == from then to else s[i])
  {
    if s == [] then [] else [if s[0] == from then to else s[0]] + ReplaceChar(s[1..], from, to)
  }

  /** convert_slug_to_module_name: every '-' becomes '_'. */
  function ConvertSlugToModuleName(slug: string): (name: string)
    ensures |name| == |slug|
    ensures '-' !in name
    ensures forall i :: 0 <= i < |slug| && slug[i] != '-' ==> name[i] == slug[i]
    ensures forall i :: 0 <= i < |slug| && slug[i] == '-' ==> name[i] == '_'
  {
    ReplaceChar(slug, '-', '_')
  }

  /** Converting a module name again changes nothing. */
  lemma ConvertSlugIdempotent(slug: string)
    ensures ConvertSlugToModuleName(ConvertSlugToModuleName(slug)) == ConvertSlugToModuleName(slug)
  {
  }

  /** A string is its own module name exactly when it holds no '-'. */
  lemma ConvertSlugFixedPoints(slug: string)
    ensures ConvertSlugToModuleName(slug) == slug <==> '-' !in slug
  {
  }

  /** The conversion merges slugs that differ only in '-' versus '_', so two
      problems can end up with the same module name. */
  lemma ConvertSlugMergesSeparators(a: string, b: string)
    requires |a| == |b|
    requires forall i :: 0 <= i < |a| ==> a[i] == b[i] || (a[i] in "-_" && b[i] in "-_")
    ensures ConvertSlugToModuleName(a) == ConvertSlugToModuleName(b)
  {
  }
}
