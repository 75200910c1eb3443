/**
 * The landing page's script (assets/js/script.js): the project carousel's index and indicators,
 * the placement classes of the testimonial slides, and the contact form's validation before the
 * WhatsApp message is composed.
 */
module Landing {
  import opened Wrappers

  // ---------------------------------------------------------------- carousel

  /** The next button and the five-second timer: one slide on, from the last back to the first. */
  function NextIndex(i: int, n: int): int
    requires n > 0
  {
    (i + 1) % n
  }

  /** The previous button: one slide back, from the first to the last. */
  function PrevIndex(i: int, n: int): int
    requires n > 0
  {
    (i - 1 + n) % n
  }

  /** Dafny's `%` gives the remainder of the one quotient with a remainder in [0, n). */
  lemma ModUnique(x: int, n: int, q: int, r: int)
    requires n > 0 && 0 <= r < n && x == q * n + r
    ensures x % n == r
  {
    var k := q - x / n;
    assert k * n == x % n - r by {
      assert x == (x / n) * n + x % n;
      assert k * n == q * n - (x / n) * n;
    }
  }

  /** One full turn adds nothing. */
  lemma ModShift(x: int, n: int)
    requires n > 0
    ensures (x + n) % n == x % n
  {
    var q, r := x / n, x % n;
    assert x + n == (q + 1) * n + r;
    ModUnique(x + n, n, q + 1, r);
  }

  /** Both moves stay among the slides and each undoes the other. */
  lemma MovesWrapAround(i: int, n: int)
    requires n > 0 && 0 <= i < n
    ensures NextIndex(i, n) == (if i == n - 1 then 0 else i + 1)
    ensures PrevIndex(i, n) == (if i == 0 then n - 1 else i - 1)
    ensures 0 <= NextIndex(i, n) < n && 0 <= PrevIndex(i, n) < n
    ensures PrevIndex(NextIndex(i, n), n) == i && NextIndex(PrevIndex(i, n), n) == i
  {
    if i == n - 1 { ModUnique(i + 1, n, 1, 0); } else { ModUnique(i + 1, n, 0, i + 1); }
    if i == 0 { ModUnique(i - 1 + n, n, 0, n - 1); } else { ModUnique(i - 1 + n, n, 1, i - 1); }
    var j := NextIndex(i, n);
    if j == 0 { ModUnique(j - 1 + n, n, 0, n - 1); } else { ModUnique(j - 1 + n, n, 1, j - 1); }
    var h := PrevIndex(i, n);
    if h == n - 1 { ModUnique(h + 1, n, 1, 0); } else { ModUnique(h + 1, n, 0, h + 1); }
  }

  /** `n` presses of next bring the carousel back to where it was. */
  function Advance(i: int, n: int, presses: nat): (r: int)
    requires n > 0 && 0 <= i < n
    ensures 0 <= r < n
    decreases presses
  {
    if presses == 0 then i else MovesWrapAround(i, n); Advance(NextIndex(i, n), n, presses - 1)
  }

  lemma {:induction false} AdvanceIsModular(i: int, n: int, presses: nat)
    requires n > 0 && 0 <= i < n
    ensures Advance(i, n, presses) == (i + presses) % n
    decreases presses
  {
    if presses == 0 {
      ModUnique(i, n, 0, i);
    } else {
      MovesWrapAround(i, n);
      var j := NextIndex(i, n);
      AdvanceIsModular(j, n, presses - 1);
      if i == n - 1 {
        assert j + presses - 1 == presses - 1;
        ModShift(presses - 1, n);
        assert (presses - 1) + n == i + presses;
      } else {
        assert j + presses - 1 == i + presses;
      }
    }
  }

  /** Every indicator is active exactly when its index is `k`. */
  predicate OnlyActive(flags: seq<bool>, k: int) {
    forall i :: 0 <= i < |flags| ==> (flags[i] <==> i == k)
  }

  /** updateCarousel's indicator pass and updateActiveIndicator: the indicator at `k` on, all others off. */
  method MarkActive(indicators: array<bool>, k: int)
    modifies indicators
    ensures OnlyActive(indicators[..], k)
  {
    for i := 0 to indicators.Length
      invariant forall j :: 0 <= j < i ==> (indicators[j] <==> j == k)
    {
      indicators[i] := i == k;
    }
  }

  /** An index among the indicators leaves exactly one on; any other index leaves none on. */
  lemma OnlyActiveCount(flags: seq<bool>, k: int)
    requires OnlyActive(flags, k)
    ensures 0 <= k < |flags| ==> flags[k] && forall i :: 0 <= i < |flags| && flags[i] ==> i == k
    ensures !(0 <= k < |flags|) ==> forall i :: 0 <= i < |flags| ==> !flags[i]
  {
  }

  /** The project carousel: its current slide and the indicator dots. */
  class Carousel {
    var current: int
    const total: int
    const indicators: array<bool>

    /** The index stays a slide position or an indicator position; the script never marks the
        indicators on load (the page's markup does), only after a move. */
    ghost predicate Valid()
      reads this
    {
      total > 0 && 0 <= current
    }

    /** The script starts only when there is at least one slide, at slide 0; the indicators are left as
        the page's markup has them. */
    constructor (total: int, indicators: array<bool>)
      requires total > 0
      ensures this.total == total && this.indicators == indicators && current == 0
      ensures Valid()
    {
      this.total := total;
      this.indicators := indicators;
      current := 0;
    }

    method UpdateCarousel()
      requires Valid()
      modifies indicators
      ensures OnlyActive(indicators[..], current)
    {
      MarkActive(indicators, current);
    }

    method Next()
      requires Valid()
      modifies this, indicators
      ensures current == NextIndex(old(current), total) && current < total
      ensures Valid() && OnlyActive(indicators[..], current)
    {
      current := (current + 1) % total;
      UpdateCarousel();
    }

    method Prev()
      requires Valid()
      modifies this, indicators
      ensures current == PrevIndex(old(current), total) && current < total
      ensures Valid() && OnlyActive(indicators[..], current)
    {
      current := (current - 1 + total) % total;
      UpdateCarousel();
    }

    /** A click on the indicator at `index` (there may be more indicators than slides). */
    method GoTo(index: int)
      requires Valid() && 0 <= index < indicators.Length
      modifies this, indicators
      ensures current == index
      ensures Valid() && OnlyActive(indicators[..], current)
    {
      current := index;
      UpdateCarousel();
    }
  }

  // ---------------------------------------------------------------- testimonials

  /** The placement class a testimonial card gets. */
  datatype Placement = Active | Prev | Next | Far

  /** updateSlideClasses for the slide with real index `index`, the active one being `active` of `total`. */
  function Place(index: int, active: int, total: int): Placement {
    var distance := if index >= active then index - active else active - index;
    if index == active then Active
    else if distance == 1 || (active == 0 && index == total - 1) || (active == total - 1 && index == 0) then
      if index == active - 1 || (active == 0 && index == total - 1) then Prev else Next
    else Far
  }

  /** With at least three testimonials, the card before the active one (round the loop) is "prev",
      the one after it "next", the active one "active" and every other "far". */
  lemma PlaceIsCircular(index: int, active: int, total: int)
    requires total >= 3 && 0 <= index < total && 0 <= active < total
    ensures Place(index, active, total) == Active <==> index == active
    ensures Place(index, active, total) == Prev <==> index == PrevIndex(active, total)
    ensures Place(index, active, total) == Next <==> index == NextIndex(active, total)
  {
    MovesWrapAround(active, total);
  }

  /** With two testimonials the other card is always "prev"; with one, it is the active card. */
  lemma PlaceFewSlides(index: int, active: int, total: int)
    requires 1 <= total <= 2 && 0 <= index < total && 0 <= active < total
    ensures Place(index, active, total) == (if index == active then Active else Prev)
  {
  }

  /** One testimonial slide: its real index and its card's placement (no card, nothing to mark). */
  datatype Slide = Slide(realIndex: int, card: Option<Placement>)



  /** Every card takes the placement of its slide's real index; slides without a card are skipped. */
  method UpdateSlideClasses(slides: array<Slide>, active: int)
    modifies slides
    ensures forall i :: 0 <= i < slides.Length ==>
      slides[i].realIndex == old(slides[i].realIndex)
      && slides[i].card == (if old(slides[i].card).None? then None
                           else Some(Place(old(slides[i].realIndex), active, slides.Length / 3)))
  {
    var total := slides.Length / 3;
    for i := 0 to slides.Length
      invariant forall j :: i <= j < slides.Length ==> slides[j] == old(slides[j])
      invariant forall j :: 0 <= j < i ==>
        slides[j].realIndex == old(slides[j].realIndex)
        && slides[j].card == (if old(slides[j].card).None? then None
                             else Some(Place(old(slides[j].realIndex), active, total)))
    {
      if slides[i].card.Some? {
        slides[i] := slides[i].(card := Some(Place(slides[i].realIndex, active, total)));
      }
    }
  }

  // ---------------------------------------------------------------- contact form

  /** The submitted form as Object.fromEntries(new FormData(form)): unchecked checkboxes are absent. */
  type FormEntries = map<string, string>

  /** A field's value, "" when absent; only "" is falsy. */
  function Field(data: FormEntries, name: string): string {
    if name in data then data[name] else ""
  }

  const RequiredFields: seq<string> := ["nombre", "dni", "telefono"]

  /** The required fields that are missing or empty, in their listed order. */
  function MissingFields(data: FormEntries, fields: seq<string>): (r: seq<string>)
    ensures forall f :: f in r <==> f in fields && Field(data, f) == ""
    decreases |fields|
  {
    if |fields| == 0 then []
    else
      assert forall f :: f in fields <==> f == fields[0] || f in fields[1..];
      (if Field(data, fields[0]) == "" then [fields[0]] else []) + MissingFields(data, fields[1..])
  }

  /** The details the WhatsApp message carries. */
  datatype Contact = Contact(nombre: string, dni: string, telefono: string, email: string, mensaje: string)

  datatype Submission = TermsNotAccepted | MissingRequired | Send(contact: Contact)

  function OrElse(v: string, fallback: string): string { if v == "" then fallback else v }

  /** handleFormSubmit: the terms are checked first, then the required fields; the optional ones get placeholders. */
  function Submit(data: FormEntries): Submission {
    if Field(data, "terminos") == "" then TermsNotAccepted
    else if |MissingFields(data, RequiredFields)| > 0 then MissingRequired
    else Send(Contact(Field(data, "nombre"), Field(data, "dni"), Field(data, "telefono"),
                      OrElse(Field(data, "email"), "No proporcionado"),
                      OrElse(Field(data, "mensaje"), "Sin mensaje adicional")))
  }

  /** Unaccepted terms are reported whatever else is missing; then a missing name, DNI or phone;
      otherwise the message is sent with the entered details and placeholders for the optional ones. */
  lemma SubmitOrder(data: FormEntries)
    ensures Submit(data) == TermsNotAccepted <==> Field(data, "terminos") == ""
    ensures Submit(data) == MissingRequired <==>
      Field(data, "terminos") != "" && (Field(data, "nombre") == "" || Field(data, "dni") == "" || Field(data, "telefono") == "")
    ensures Submit(data).Send? ==>
      var c := Submit(data).contact;
      c.nombre == data["nombre"] && c.dni == data["dni"] && c.telefono == data["telefono"]
      && c.nombre != "" && c.dni != "" && c.telefono != ""
      && (c.email == "No proporcionado" <==> Field(data, "email") == "" || data["email"] == "No proporcionado")
      && (Field(data, "email") != "" ==> c.email == data["email"])
      && (Field(data, "mensaje") != "" ==> c.mensaje == data["mensaje"])
      && (Field(data, "mensaje") == "" ==> c.mensaje == "Sin mensaje adicional")
  {
    var m := MissingFields(data, RequiredFields);
    assert |m| > 0 <==> exists f :: f in m;
    assert "nombre" in RequiredFields && "dni" in RequiredFields && "telefono" in RequiredFields;
  }
}
