/**
 * The blog dashboard's browser script (admin_blog/static/js/script.js): the date text put into
 * the edit form, the category select with its "new category" text input, and the page buttons
 * under the blog table.
 */
module AdminDashboard {
  import opened Wrappers
  import opened Text

  // ---------------------------------------------------------------- dates

  /** What editBlog puts into the date input: a value computed through Date (not modelled), or a text. */
  datatype DateInput = ThroughDate | DateText(text: string)

  predicate DateSeparator(c: char) { c == ' ' || c == 'T' }

  /**
   * The date input for a stored `fecha`: nothing for an empty one, the Date branch for GMT or
   * UTC texts, and otherwise the longest prefix before a space or a 'T'.
   */
  function DateForInput(fecha: string): (r: Option<DateInput>)
    ensures r.None? <==> fecha == ""
    ensures r == Some(ThroughDate) <==> fecha != "" && (Contains(fecha, "GMT") || Contains(fecha, "UTC"))
    ensures r.Some? && r.value.DateText? ==>
      var t := r.value.text;
      t <= fecha && (forall k :: 0 <= k < |t| ==> !DateSeparator(t[k]))
      && (|t| < |fecha| ==> DateSeparator(fecha[|t|]))
  {
    if fecha == "" then None
    else if Contains(fecha, "GMT") || Contains(fecha, "UTC") then Some(ThroughDate)
    else if ' ' in fecha || 'T' in fecha then Some(DateText(BeforeChar(BeforeChar(fecha, ' '), 'T')))
    else Some(DateText(fecha))
  }

  /** A date already in input form is kept, and putting a computed text back in changes nothing. */
  lemma DateForInputIdempotent(fecha: string)
    requires DateForInput(fecha).Some? && DateForInput(fecha).value.DateText?
    ensures var t := DateForInput(fecha).value.text;
      (t == fecha <==> forall k :: 0 <= k < |fecha| ==> !DateSeparator(fecha[k]))
      && (t != "" ==> DateForInput(t) == Some(DateText(t)))
  {
    var t := DateForInput(fecha).value.text;
    if t != "" {
      if Contains(t, "GMT") { ContainsInPrefix(t, fecha, "GMT"); }
      if Contains(t, "UTC") { ContainsInPrefix(t, fecha, "UTC"); }
      assert ' ' !in t && 'T' !in t by {
        forall k | 0 <= k < |t| ensures t[k] != ' ' && t[k] != 'T' { assert !DateSeparator(t[k]); }
      }
    }
    if forall k :: 0 <= k < |fecha| ==> !DateSeparator(fecha[k]) {
      assert ' ' !in fecha && 'T' !in fecha by {
        forall k | 0 <= k < |fecha| ensures fecha[k] != ' ' && fecha[k] != 'T' { assert !DateSeparator(fecha[k]); }
      }
    }
  }

  // ---------------------------------------------------------------- categories

  /** The category select (its option values and value) and the new-category text input. */
  datatype CategoryForm = CategoryForm(options: seq<string>, selected: string, input: string, inputShown: bool)

  /** Setting a select's value picks the option with that value, or none (value "") when there is none. */
  function SelectValue(options: seq<string>, v: string): string {
    if v in options then v else ""
  }

  /** getCategoryValue: the trimmed text input for "nueva" or an empty choice, else the chosen option. */
  function CategoryValue(f: CategoryForm): string {
    if f.selected == "nueva" || f.selected == "" then Trim(f.input) else f.selected
  }

  /** updateCategorySelect: the first two options are kept, every other one replaced by `categorias` in order. */
  function UpdateSelect(f: CategoryForm, categorias: seq<string>): CategoryForm {
    f.(options := f.options[..if |f.options| < 2 then |f.options| else 2] + categorias)
  }

  /** The select's change handler, once the option `v` is chosen. */
  function Choose(f: CategoryForm, v: string): CategoryForm {
    var value := SelectValue(f.options, v);
    if value == "nueva" then f.(selected := value, inputShown := true, input := "")
    else if value == "" then f.(selected := value, inputShown := false, input := "")
    else f.(selected := value, inputShown := false, input := value)
  }

  /** editBlog: select the blog's category when it is an option, else "nueva" with the category typed in. */
  function EditCategory(f: CategoryForm, categoria: string): CategoryForm {
    if categoria in f.options then f.(selected := categoria, inputShown := false, input := categoria)
    else f.(selected := SelectValue(f.options, "nueva"), inputShown := true, input := categoria)
  }

  /** After updateCategorySelect option 2 + i is categorias[i] and the first two options are untouched. */
  lemma UpdateSelectLayout(f: CategoryForm, categorias: seq<string>)
    requires |f.options| >= 2
    ensures var o := UpdateSelect(f, categorias).options;
      |o| == 2 + |categorias| && o[0] == f.options[0] && o[1] == f.options[1]
      && forall i :: 0 <= i < |categorias| ==> o[2 + i] == categorias[i]
  {
  }

  /** Choosing an existing category submits it; "nueva" and the empty choice show an empty input and
      submit "" until something is typed; only "nueva" shows the input. */
  lemma ChooseThenValue(f: CategoryForm, v: string)
    ensures CategoryValue(Choose(f, v)) == (if v in f.options && v != "nueva" then v else "")
    ensures Choose(f, v).inputShown <==> v == "nueva" && v in f.options
    ensures Choose(f, v).options == f.options
  {
    if v !in f.options || v == "nueva" || v == "" {
      assert Trim("") == "";
    }
  }

  /** Editing a blog and saving it unchanged submits its category as listed when it is an option,
      and otherwise the category typed into the input, trimmed. */
  lemma EditThenValue(f: CategoryForm, categoria: string)
    ensures CategoryValue(EditCategory(f, categoria)) == if categoria in f.options then categoria else Trim(categoria)
    ensures EditCategory(f, categoria).inputShown <==> categoria !in f.options
  {
    if categoria in f.options && (categoria == "nueva" || categoria == "") {
      assert |categoria| > 0 ==> categoria[0] == 'n' && categoria[|categoria| - 1] == 'a';
      TrimUntouched(categoria);
    }
  }

  /** The page's category controls. */
  class CategoryControls {
    var options: seq<string>
    var selected: string
    var input: string
    var inputShown: bool

    function Form(): CategoryForm
      reads this
    {
      CategoryForm(options, selected, input, inputShown)
    }

    constructor (options: seq<string>)
      ensures Form() == CategoryForm(options, "", "", false)
    {
      this.options := options;
      selected, input, inputShown := "", "", false;
    }

    /** Remove trailing options until two are left, then append one option per category. */
    method UpdateCategorySelect(categorias: seq<string>)
      modifies this
      ensures Form() == UpdateSelect(old(Form()), categorias)
    {
      while |options| > 2
        invariant options == old(options)[..|options|]
        invariant |options| >= (if |old(options)| < 2 then |old(options)| else 2)
        invariant selected == old(selected) && input == old(input) && inputShown == old(inputShown)
        decreases |options|
      {
        options := options[..|options| - 1];
      }
      var kept := options;
      for i := 0 to |categorias|
        invariant options == kept + categorias[..i]
        invariant selected == old(selected) && input == old(input) && inputShown == old(inputShown)
      {
        options := options + [categorias[i]];
      }
      assert categorias[..|categorias|] == categorias;
    }

    method ChangeSelection(v: string)
      modifies this
      ensures Form() == Choose(old(Form()), v)
    {
      selected := SelectValue(options, v);
      if selected == "nueva" {
        inputShown, input := true, "";
      } else if selected == "" {
        inputShown, input := false, "";
      } else {
        inputShown, input := false, selected;
      }
    }

    method GetCategoryValue() returns (r: string)
      ensures r == CategoryValue(Form())
    {
      if selected == "nueva" || selected == "" {
        r := Trim(input);
      } else {
        r := selected;
      }
    }
  }

  // ---------------------------------------------------------------- pagination

  /** One button of the dashboard's pagination bar; each loads the page it names. */
  datatype PageButton = Previous(target: int) | Numbered(page: int, active: bool) | Following(target: int)

  /**
   * updateDashboardPagination: nothing for at most one page; otherwise "previous" when there is a
   * page before, one button per page with only the current one active, and "next" when there is a
   * page after.
   */
  method DashboardPagination(current: int, total: int) returns (r: seq<PageButton>)
    ensures total <= 1 ==> r == []
    ensures total > 1 ==>
      var first := if current > 1 then 1 else 0;
      |r| == first + total + (if current < total then 1 else 0)
      && (current > 1 ==> r[0] == Previous(current - 1))
      && (forall j :: first <= j < first + total ==> r[j] == Numbered(j - first + 1, j - first + 1 == current))
      && (current < total ==> r[|r| - 1] == Following(current + 1))
  {
    r := [];
    if total <= 1 {
      return;
    }
    if current > 1 {
      r := r + [Previous(current - 1)];
    }
    ghost var first := |r|;
    var i := 1;
    while i <= total
      invariant 1 <= i <= total + 1
      invariant |r| == first + i - 1
      invariant current > 1 ==> r[0] == Previous(current - 1)
      invariant forall j :: first <= j < |r| ==> r[j] == Numbered(j - first + 1, j - first + 1 == current)
    {
      r := r + [Numbered(i, i == current)];
      i := i + 1;
    }
    if current < total {
      r := r + [Following(current + 1)];
    }
  }

  /** With more than one page, exactly the current page's button is active when the page exists. */
  lemma OneActiveButton(r: seq<PageButton>, current: int, total: int)
    requires total > 1
    requires var first := if current > 1 then 1 else 0;
      |r| == first + total + (if current < total then 1 else 0)
      && (current > 1 ==> r[0] == Previous(current - 1))
      && (forall j :: first <= j < first + total ==> r[j] == Numbered(j - first + 1, j - first + 1 == current))
      && (current < total ==> r[|r| - 1] == Following(current + 1))
    ensures forall b :: b in r && b.Numbered? && b.active ==> b.page == current
    ensures Numbered(current, true) in r <==> 1 <= current <= total
    ensures (exists b :: b in r && b.Previous?) <==> current > 1
    ensures (exists b :: b in r && b.Following?) <==> current < total
  {
    var first := if current > 1 then 1 else 0;
    var last := if current < total then 1 else 0;
    forall b | b in r ensures b.Numbered? ==> b == Numbered(b.page, b.page == current) && 1 <= b.page <= total
      ensures b.Previous? ==> current > 1
      ensures b.Following? ==> current < total
    {
      var k :| 0 <= k < |r| && r[k] == b;
      if k == 0 && current > 1 {
      } else if k < first + total {
      } else {
        assert k == |r| - 1 && current < total;
      }
    }
    if 1 <= current <= total {
      assert r[first + current - 1] == Numbered(current, true);
      assert r[first + current - 1] in r;
    }
    if current > 1 {
      assert r[0] in r;
    }
    if current < total {
      assert r[|r| - 1] in r;
    }
  }
}
