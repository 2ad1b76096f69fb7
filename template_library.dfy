/** The workflow-template library's list filter: a search term tested against name and
    description, and a category and a persona choice where "all" lets everything through. */
module TemplateLibrary {
  import opened Common
  import opened AutomationStore

  /** A choice from a drop-down: "all", or the one value to keep. */
  predicate Chosen(choice: string, value: string)
  {
    choice == "all" || value == choice
  }

  predicate Shown(t: Template, searchTerm: string, category: string, persona: string)
  {
    (MatchesTerm(t.name, searchTerm) || MatchesTerm(t.description, searchTerm))
    && Chosen(category, t.category.Slug()) && Chosen(persona, t.persona)
  }

  function FilteredTemplates(templates: seq<Template>, searchTerm: string, category: string, persona: string): (r: seq<Template>)
    ensures forall i :: 0 <= i < |r| ==> r[i] in templates && Shown(r[i], searchTerm, category, persona)
    ensures forall i :: 0 <= i < |templates| && Shown(templates[i], searchTerm, category, persona) ==> templates[i] in r
  {
    Filter(templates, (t: Template) => Shown(t, searchTerm, category, persona))
  }

  /** The filtered list keeps the catalogue's order. */
  lemma FilteredTemplatesOrdered(templates: seq<Template>, searchTerm: string, category: string, persona: string)
    ensures IsSubsequence(FilteredTemplates(templates, searchTerm, category, persona), templates)
  {
    FilterIsSubsequence(templates, (t: Template) => Shown(t, searchTerm, category, persona));
  }

  /** With an empty search and both choices on "all" every template is listed. */
  lemma NoFilterShowsAll(templates: seq<Template>)
    ensures FilteredTemplates(templates, "", "all", "all") == templates
  {
    forall i | 0 <= i < |templates|
      ensures Shown(templates[i], "", "all", "all")
    {
      MatchesTermProperties(templates[i].name, "");
    }
    FilterAll(templates, (t: Template) => Shown(t, "", "all", "all"));
  }

  /** The search ignores the case of the term typed. */
  lemma SearchIgnoresCase(templates: seq<Template>, searchTerm: string, category: string, persona: string)
    ensures FilteredTemplates(templates, Lower(searchTerm), category, persona) == FilteredTemplates(templates, searchTerm, category, persona)
  {
    forall t: Template
      ensures Shown(t, Lower(searchTerm), category, persona) == Shown(t, searchTerm, category, persona)
    {
      MatchesTermProperties(t.name, searchTerm);
      MatchesTermProperties(t.description, searchTerm);
    }
    FilterSame(templates, (t: Template) => Shown(t, Lower(searchTerm), category, persona),
                          (t: Template) => Shown(t, searchTerm, category, persona));
  }
}
