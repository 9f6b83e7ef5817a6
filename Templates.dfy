/**
 * The post templates and the layouts that render them: `POST_TEMPLATES.find(...) ||
 * POST_TEMPLATES[0]` and `layouts[layout] || layouts.centered`.
 */
module Templates {
  import opened Common

  datatype Template = Template(id: string, name: string, layout: string)

  const PostTemplates: seq<Template> := [
    Template("product-hero", "Producto Hero", "centered"),
    Template("product-minimal", "Minimal Clean", "minimal"),
    Template("product-bold", "Bold Statement", "bold"),
    Template("product-duo", "Duo Showcase", "duo"),
    Template("product-story", "Story Format", "story"),
    Template("product-sale", "Flash Sale", "sale")
  ]

  /** `Array.prototype.findIndex` on ids: the first position whose id matches, if any. */
  function FindIndex(ts: seq<Template>, id: string): (r: Option<nat>)
    ensures r.Some? ==> r.value < |ts| && ts[r.value].id == id
    ensures r.Some? ==> forall j :: 0 <= j < r.value ==> ts[j].id != id
    ensures r.None? <==> forall j :: 0 <= j < |ts| ==> ts[j].id != id
  {
    if ts == [] then None
    else if ts[0].id == id then Some(0)
    else match FindIndex(ts[1..], id)
      case None => None
      case Some(k) => Some(k + 1)
  }

  /** The selected template, or the first one when no template has the selected id. */
  function FindTemplate(selected: string): (t: Template)
    ensures t in PostTemplates
    ensures (exists i :: 0 <= i < |PostTemplates| && PostTemplates[i].id == selected) ==> t.id == selected
    ensures (forall i :: 0 <= i < |PostTemplates| ==> PostTemplates[i].id != selected) ==> t == PostTemplates[0]
  {
    match FindIndex(PostTemplates, selected)
    case Some(k) => PostTemplates[k]
    case None => PostTemplates[0]
  }

  /** Each listed template is found by its own id. */
  lemma FindTemplateOfListed(i: nat)
    requires i < |PostTemplates|
    ensures FindTemplate(PostTemplates[i].id) == PostTemplates[i]
  {
  }

  /** The six renderings `TemplatePreview` knows. */
  datatype Layout = Centered | Minimal | Bold | Duo | Story | Sale

  /** The key of each rendering in the `layouts` table. */
  function LayoutKey(l: Layout): string {
    match l
    case Centered => "centered"
    case Minimal => "minimal"
    case Bold => "bold"
    case Duo => "duo"
    case Story => "story"
    case Sale => "sale"
  }

  /** `layouts[layout] || layouts.centered`: the rendering with that key, otherwise the centered one. */
  function ResolveLayout(key: string): (l: Layout)
    ensures forall m :: key == LayoutKey(m) ==> l == m
    ensures (forall m :: key != LayoutKey(m)) ==> l == Centered
  {
    if key == LayoutKey(Minimal) then Minimal
    else if key == LayoutKey(Bold) then Bold
    else if key == LayoutKey(Duo) then Duo
    else if key == LayoutKey(Story) then Story
    else if key == LayoutKey(Sale) then Sale
    else Centered
  }

  /** Every template names a rendering that exists, so its own layout never falls back. */
  lemma TemplateLayoutsExist()
    ensures forall t :: t in PostTemplates ==> LayoutKey(ResolveLayout(t.layout)) == t.layout
  {
  }

  /**
   * The layout of a generated post's card: that of the selected template (or of the first
   * template when the selection is unknown), never the fallback.
   */
  function CardLayout(selected: string): (l: Layout)
    ensures LayoutKey(l) == FindTemplate(selected).layout
  {
    TemplateLayoutsExist();
    ResolveLayout(FindTemplate(selected).layout)
  }

  /** The card layout as `src/App.jsx` computes it: the template id itself is looked up as a layout key. */
  function CardLayoutAsWrittenInApp(selected: string): (l: Layout)
    ensures (forall m :: selected != LayoutKey(m)) ==> l == Centered
  {
    ResolveLayout(selected)
  }

  /**
   * No template id is a layout key, so whatever template is selected the generated cards
   * are drawn centered; for every template but the first this is not the template's layout.
   */
  lemma AppCardsAlwaysCentered(i: nat)
    requires i < |PostTemplates|
    ensures CardLayoutAsWrittenInApp(PostTemplates[i].id) == Centered
    ensures i > 0 ==> CardLayoutAsWrittenInApp(PostTemplates[i].id) != CardLayout(PostTemplates[i].id)
  {
    var id := PostTemplates[i].id;
    assert id[0] == 'p';
    forall m: Layout
      ensures id != LayoutKey(m)
    {
      assert LayoutKey(m)[0] != 'p';
    }
    FindTemplateOfListed(i);
  }
}
