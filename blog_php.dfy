/**
 * The blog API of the PHP back-end (admin_blog/index.php): path normalisation
 * and the first-match router, the upload-extension test and image store, the
 * listing with its dashboard pagination, create, update, delete, the popular
 * toggle and listing, the orphaned-image cleanup and the static-file MIME lookup.
 *
 * Form values arrive with missing fields as ''. The moment's `uniqid()`, the
 * success of moving an upload, the session flag and the uploads directory's
 * listing are parameters. Files the handlers remove are returned by name.
 */
module BlogPhp {
  import opened Wrappers
  import opened Text
  import opened BlogTable

  const Allowed: set<string> := {"png", "jpg", "jpeg", "gif", "webp"}

  /** PHP truthiness of a string: neither '' nor '0'. */
  predicate Truthy(s: string) {
    s != "" && s != "0"
  }

  /** PHP truthiness of a NULL-able column. */
  predicate TruthyColumn(s: Option<string>) {
    s.Some? && Truthy(s.value)
  }

  // ---------------------------------------------------------------- file names

  /** The first step of basename() and pathinfo(): the trailing slashes are ignored. */
  function StripTrailingSlashes(s: string): (r: string)
    ensures r <= s
    ensures forall i :: |r| <= i < |s| ==> s[i] == '/'
    ensures |r| > 0 ==> r[|r| - 1] != '/'
    ensures |s| > 0 && s[|s| - 1] != '/' ==> r == s
    decreases |s|
  {
    if |s| > 0 && s[|s| - 1] == '/' then StripTrailingSlashes(s[..|s| - 1]) else s
  }

  /** basename(): the last path component, trailing slashes ignored. */
  function Basename(path: string): (b: string)
    ensures '/' !in b
  {
    AfterLastChar(StripTrailingSlashes(path), '/')
  }

  /** pathinfo(path, PATHINFO_EXTENSION): the text after the last '.' of the basename, '' without one. */
  function Extension(path: string): (e: string)
    ensures '.' !in e && '/' !in e
  {
    var b := Basename(path);
    if '.' in b then AfterLastChar(b, '.') else ""
  }

  /** allowedFile: the lower-cased extension is one of the five. */
  predicate AllowedFile(filename: string) {
    Lower(Extension(filename)) in Allowed
  }

  /** An entry of $_FILES: the client's file name and the upload error code. */
  datatype Upload = Upload(name: string, error: int)

  const UploadErrOk: int := 0

  /** The stored name of a saved upload: uniqid(), '_' and the basename of the client's name. */
  function SavedName(uniq: string, name: string): string {
    uniq + "_" + Basename(name)
  }

  /** saveImage: the public path of the stored upload, or None. */
  function SaveImage(f: Option<Upload>, uniq: string, moved: bool): (r: Option<string>)
    ensures r.Some? <==> f.Some? && f.value.error == UploadErrOk && AllowedFile(f.value.name) && moved
    ensures r.Some? ==> r.value == UploadsPrefix + SavedName(uniq, f.value.name)
  {
    if f.None? || f.value.error != UploadErrOk then None
    else if !AllowedFile(f.value.name) then None
    else if moved then Some(UploadsPrefix + SavedName(uniq, f.value.name))
    else None
  }

  /** deleteImage strips the prefix off a stored path and finds the very file saveImage wrote. */
  lemma {:induction false} SaveThenDeleteSameFile(uniq: string, name: string)
    requires '/' !in uniq
    ensures StoredFileName(UploadsPrefix + SavedName(uniq, name)) == SavedName(uniq, name)
  {
    var saved := SavedName(uniq, name);
    var b := Basename(name);
    assert forall i :: 0 <= i < |saved| ==> saved[i] == (if i < |uniq| then uniq[i] else if i == |uniq| then '_' else b[i - |uniq| - 1]);
    assert '/' !in saved;
    StoredFileNameRoundTrip(saved);
  }

  /** deleteImage: the upload file removed for an image path, when the path is truthy. */
  function ImageFile(imagen: Option<string>): Option<string> {
    if TruthyColumn(imagen) then Some(StoredFileName(imagen.value)) else None
  }

  // ---------------------------------------------------------------- query parameters

  predicate IsIntSpace(c: char) {
    c == ' ' || c == '\t' || c == '\n' || c == '\r' || c == '\U{000B}' || c == '\U{000C}'
  }

  function SkipSpace(s: string): (r: string)
    ensures |r| <= |s| && r == s[|s| - |r|..]
    ensures |r| > 0 ==> !IsIntSpace(r[0])
  {
    if |s| > 0 && IsIntSpace(s[0]) then SkipSpace(s[1..]) else s
  }

  function LeadingDigits(s: string): (d: string)
    ensures d <= s && AllDigits(d)
    ensures |d| < |s| ==> !IsDigit(s[|d|])
  {
    if |s| > 0 && IsDigit(s[0]) then [s[0]] + LeadingDigits(s[1..]) else []
  }

  /** intval() of a query string: optional blanks, an optional sign, then the leading digits; 0 without any. */
  function IntVal(s: string): int {
    var t := SkipSpace(s);
    if |t| > 0 && t[0] == '-' then -(DecimalValue(LeadingDigits(t[1..])) as int)
    else if |t| > 0 && t[0] == '+' then DecimalValue(LeadingDigits(t[1..]))
    else DecimalValue(LeadingDigits(t))
  }

  /** intval() reads back the decimal text of every natural number. */
  lemma {:induction false} IntValRoundTrip(n: nat)
    ensures IntVal(NatToString(n)) == n
  {
    var s := NatToString(n);
    assert !IsIntSpace(s[0]) && s[0] != '-' && s[0] != '+' by { assert IsDigit(s[0]); }
    assert SkipSpace(s) == s;
    AllDigitsLeading(s);
    NatToStringRoundTrip(n);
  }

  lemma {:induction false} AllDigitsLeading(s: string)
    requires AllDigits(s)
    ensures LeadingDigits(s) == s
    decreases |s|
  {
    if |s| > 0 {
      AllDigitsLeading(s[1..]);
    }
  }

  /** Text that starts with neither a blank, a sign nor a digit reads as 0. */
  lemma NonNumericIsZero(s: string)
    requires |s| > 0 && !IsIntSpace(s[0]) && !IsDigit(s[0]) && s[0] != '-' && s[0] != '+'
    ensures IntVal(s) == 0
  {
    assert SkipSpace(s) == s;
    assert LeadingDigits(s) == [];
  }

  predicate IsFilterSpace(c: char) {
    c == ' ' || c == '\t' || c == '\r' || c == '\U{000B}' || c == '\n'
  }

  function FilterTrim(s: string): (r: string)
    decreases |s|
  {
    if |s| > 0 && IsFilterSpace(s[0]) then FilterTrim(s[1..])
    else if |s| > 0 && IsFilterSpace(s[|s| - 1]) then FilterTrim(s[..|s| - 1])
    else s
  }

  /** filter_var(arg ?? false, FILTER_VALIDATE_BOOLEAN): on only for 1, true, on and yes, in any case. */
  predicate DashboardFlag(arg: Option<string>) {
    arg.Some? && Lower(FilterTrim(arg.value)) in {"1", "true", "on", "yes"}
  }

  // ---------------------------------------------------------------- listing

  /** ceil(totalCount / perPage) for a positive divisor. */
  function CeilDiv(total: nat, perPage: nat): nat
    requires perPage > 0
  {
    if total % perPage == 0 then total / perPage else total / perPage + 1
  }

  lemma DivUnique(a: int, b: int, q: int, r: int)
    requires b > 0 && a == q * b + r && 0 <= r < b
    ensures a / b == q
  {
    var q', r' := a / b, a % b;
    assert (q - q') * b == r' - r;
    if q - q' >= 1 { MulMonotone(1, q - q', b); }
    if q - q' <= -1 { MulMonotone(q - q', -1, b); }
  }

  /** The PHP and Python page counts agree wherever both are defined. */
  lemma {:induction false} CeilDivIsPageCount(total: nat, perPage: nat)
    requires perPage > 0
    ensures CeilDiv(total, perPage) == PageCount(total, perPage)
  {
    var q, r := total / perPage, total % perPage;
    if r == 0 {
      DivUnique(total + perPage - 1, perPage, q, perPage - 1);
    } else {
      assert total + perPage - 1 == (q + 1) * perPage + (r - 1);
      DivUnique(total + perPage - 1, perPage, q + 1, r - 1);
    }
  }

  /** The query parameters as received: page, per_page and dashboard, None when absent. */
  datatype ListArgs = ListArgs(page: Option<string>, perPage: Option<string>, dashboard: Option<string>)

  /** intval($_GET['page'] ?? 1) */
  function PageArg(args: ListArgs): int {
    if args.page.Some? then IntVal(args.page.value) else 1
  }

  /** intval($_GET['per_page'] ?? 6) */
  function PerPageArg(args: ListArgs): int {
    if args.perPage.Some? then IntVal(args.perPage.value) else 6
  }

  /**
   * GET /api/blogs. Without the dashboard flag every row, newest first. With it, the
   * rows from offset (page - 1) * perPage, at most perPage of them, with page and
   * perPage echoed; a negative LIMIT or OFFSET is an SQL error and perPage 0 a
   * division by zero that the handler does not catch.
   */
  function GetBlogs(t: Table, args: ListArgs): (reply: Reply)
    reads t
    requires t.Valid()
    ensures !DashboardFlag(args.dashboard) ==> reply == Listed(t.NewestFirstRows(), None)
    ensures DashboardFlag(args.dashboard) ==>
              var page, perPage, sorted := PageArg(args), PerPageArg(args), t.NewestFirstRows();
              (perPage < 0 || Offset(page, perPage) < 0 ==> reply == DbFailure)
              && (perPage == 0 ==> reply == Uncaught)
              && (perPage > 0 && Offset(page, perPage) >= 0 ==>
                    reply == Listed(Window(sorted, perPage, Offset(page, perPage)),
                                    Some(Pagination(page, perPage, PageCount(|sorted|, perPage), |sorted|))))
    ensures DashboardFlag(args.dashboard) && args.page.None? && args.perPage.None? ==>
              reply == Listed(Window(t.NewestFirstRows(), 6, 0),
                              Some(Pagination(1, 6, PageCount(|t.NewestFirstRows()|, 6), |t.NewestFirstRows()|)))
    ensures reply.Listed? && reply.pagination.Some? ==> SoundPage(reply, |t.NewestFirstRows()|)
  {
    var sorted := t.NewestFirstRows();
    if !DashboardFlag(args.dashboard) then Listed(sorted, None)
    else PagedListing(sorted, PageArg(args), PerPageArg(args))
  }

  /** The dashboard branch once page and per_page are read. */
  function PagedListing(sorted: seq<Row>, page: int, perPage: int): (reply: Reply)
    ensures perPage < 0 || Offset(page, perPage) < 0 ==> reply == DbFailure
    ensures perPage == 0 ==> reply == Uncaught
    ensures perPage > 0 && Offset(page, perPage) >= 0 ==>
              reply == Listed(Window(sorted, perPage, Offset(page, perPage)),
                              Some(Pagination(page, perPage, PageCount(|sorted|, perPage), |sorted|)))
              && SoundPage(reply, |sorted|)
  {
    var offset := Offset(page, perPage);
    if perPage < 0 || offset < 0 then DbFailure         // a negative LIMIT or OFFSET is an SQL error
    else if perPage == 0 then Uncaught                // division by zero, which the handler does not catch
    else
      PageFacts(sorted, page, perPage);
      Listed(Window(sorted, perPage, offset), Some(Pagination(page, perPage, CeilDiv(|sorted|, perPage), |sorted|)))
  }

  lemma PageFacts(sorted: seq<Row>, page: int, perPage: nat)
    requires perPage > 0 && Offset(page, perPage) >= 0
    ensures CeilDiv(|sorted|, perPage) == PageCount(|sorted|, perPage)
    ensures PageCount(|sorted|, perPage) * perPage >= |sorted|
    ensures (PageCount(|sorted|, perPage) - 1) * perPage < |sorted| || |sorted| == 0
    ensures page >= 1 ==> (|Window(sorted, perPage, Offset(page, perPage) as nat)| > 0
                           <==> page <= PageCount(|sorted|, perPage))
  {
    CeilDivIsPageCount(|sorted|, perPage);
    PageCountIsCeiling(|sorted|, perPage);
    if page >= 1 { PageNonEmptyIff(sorted, page, perPage); }
  }

  // ---------------------------------------------------------------- create and update

  /** The POST form: each text field '' when missing; the file entry when $_FILES has one. */
  datatype Form = Form(titulo: string, resumen: string, contenido: string, categoria: string,
                       fecha: string, imagen: Option<Upload>)

  predicate TextComplete(f: Form) {
    Truthy(f.titulo) && Truthy(f.resumen) && Truthy(f.contenido) && Truthy(f.categoria) && Truthy(f.fecha)
  }

  predicate NothingSent(f: Form) {
    !Truthy(f.titulo) && !Truthy(f.resumen) && !Truthy(f.contenido) && !Truthy(f.categoria)
    && !Truthy(f.fecha) && f.imagen.None?
  }

  function WithText(b: Blog, f: Form): Blog {
    b.(titulo := Some(f.titulo), resumen := Some(f.resumen), contenido := Some(f.contenido),
       categoria := Some(f.categoria), fecha := Some(f.fecha))
  }

  /**
   * POST /api/blogs: the five text fields are required; the image is optional, but
   * a file entry that cannot be saved (an empty file input included) fails the request.
   */
  method CreateBlog(t: Table, f: Form, uniq: string, moved: bool) returns (reply: Reply)
    requires t.Valid()
    modifies t
    ensures t.Valid()
    ensures !TextComplete(f) ==> reply == Failed(200, "faltan datos") && t.rows == old(t.rows) && t.nextId == old(t.nextId)
    ensures TextComplete(f) && f.imagen.Some? && SaveImage(f.imagen, uniq, moved).None? ==>
              reply == Failed(200, "Error al guardar la imagen") && t.rows == old(t.rows) && t.nextId == old(t.nextId)
    ensures TextComplete(f) && (f.imagen.None? || SaveImage(f.imagen, uniq, moved).Some?) ==>
              reply == Done("blog agregado de manera correcta")
              && t.rows == old(t.rows)[old(t.nextId) := Blog(Some(f.titulo), Some(f.resumen), Some(f.contenido),
                                         Some(f.categoria), SaveImage(f.imagen, uniq, moved), Some(f.fecha), false)]
              && t.nextId == old(t.nextId) + 1
  {
    if !TextComplete(f) {
      return Failed(200, "faltan datos");
    }
    var path: Option<string> := None;
    if f.imagen.Some? {
      path := SaveImage(f.imagen, uniq, moved);
      if path.None? {
        return Failed(200, "Error al guardar la imagen");
      }
    }
    var _ := t.Insert(Blog(Some(f.titulo), Some(f.resumen), Some(f.contenido), Some(f.categoria), path,
                           Some(f.fecha), false));
    reply := Done("blog agregado de manera correcta");
  }

  /**
   * apiUpdateBlog over the form it reads from $_POST and $_FILES (see PostedForm for what
   * each route delivers there). A file entry without
   * upload error replaces the image (its old file removed once the new one is
   * saved); otherwise the five text columns alone are written, '' for a missing
   * field. The 404 comes from the count of changed rows.
   */
  method UpdateBlog(t: Table, id: int, f: Form, uniq: string, moved: bool)
    returns (reply: Reply, removed: Option<string>)
    requires t.Valid()
    modifies t
    ensures t.Valid() && t.nextId == old(t.nextId)
    ensures NothingSent(f) ==> reply == Failed(200, "no se modifico ningun dato") && removed == None
                               && t.rows == old(t.rows)
    ensures !NothingSent(f) && f.imagen.Some? && f.imagen.value.error == UploadErrOk
            && SaveImage(f.imagen, uniq, moved).None? ==>
              reply == Failed(200, "Error al guardar la imagen") && removed == None && t.rows == old(t.rows)
    ensures !NothingSent(f) && id !in old(t.rows)
            && !(f.imagen.Some? && f.imagen.value.error == UploadErrOk && SaveImage(f.imagen, uniq, moved).None?) ==>
              reply == Failed(404, "no se encontró el blog") && removed == None && t.rows == old(t.rows)
    ensures !NothingSent(f) && id in old(t.rows)
            && !(f.imagen.Some? && f.imagen.value.error == UploadErrOk && SaveImage(f.imagen, uniq, moved).None?) ==>
              var before := old(t.rows)[id];
              var withImage := f.imagen.Some? && f.imagen.value.error == UploadErrOk;
              var after := if withImage then WithText(before, f).(imagen := SaveImage(f.imagen, uniq, moved))
                           else WithText(before, f);
              t.rows == old(t.rows)[id := after]
              && removed == (if withImage then ImageFile(before.imagen) else None)
              && reply == (if after == before then Failed(404, "no se encontró el blog")
                           else Done("Blog actualizado correctamente"))
  {
    removed := None;
    if NothingSent(f) {
      return Failed(200, "no se modifico ningun dato"), None;
    }
    var changed;
    if f.imagen.Some? && f.imagen.value.error == UploadErrOk {
      var oldImage := if id in t.rows then t.rows[id].imagen else None;
      var path := SaveImage(f.imagen, uniq, moved);
      if path.None? {
        return Failed(200, "Error al guardar la imagen"), None;
      }
      removed := ImageFile(oldImage);
      if id in t.rows {
        changed := t.Replace(id, WithText(t.rows[id], f).(imagen := path));
      } else {
        changed := 0;
      }
    } else {
      if id in t.rows {
        changed := t.Replace(id, WithText(t.rows[id], f));
      } else {
        changed := 0;
      }
    }
    if changed == 0 {
      return Failed(404, "no se encontró el blog"), removed;
    }
    reply := Done("Blog actualizado correctamente");
  }

  /**
   * What apiUpdateBlog finds in $_POST and $_FILES. PHP fills them from the request body of a
   * POST only; for a PUT (the route the dashboard's multipart edit uses) both stay empty, and
   * parseFormData, which would read the body, is never called.
   */
  function PostedForm(verb: string, sent: Form): (f: Form)
    ensures verb == "POST" ==> f == sent
    ensures verb != "POST" ==> NothingSent(f)
  {
    if verb == "POST" then sent else Form("", "", "", "", "", None)
  }

  /**
   * The update as routed, with the form the client sent: POST /api/blogs/<id>/update applies it,
   * while PUT /api/blogs/<id> is always answered "no se modifico ningun dato" and changes nothing.
   */
  method UpdateRequest(t: Table, id: int, verb: string, sent: Form, uniq: string, moved: bool)
    returns (reply: Reply, removed: Option<string>)
    requires t.Valid()
    modifies t
    ensures t.Valid() && t.nextId == old(t.nextId)
    ensures verb == "PUT" ==> reply == Failed(200, "no se modifico ningun dato") && removed == None
                              && t.rows == old(t.rows)
    ensures verb == "POST" && !NothingSent(sent) && sent.imagen.None? && id in old(t.rows) ==>
              t.rows == old(t.rows)[id := WithText(old(t.rows)[id], sent)] && removed == None
              && reply == (if WithText(old(t.rows)[id], sent) == old(t.rows)[id] then Failed(404, "no se encontró el blog")
                           else Done("Blog actualizado correctamente"))
  {
    reply, removed := UpdateBlog(t, id, PostedForm(verb, sent), uniq, moved);
  }

  /** A dashboard edit that changes only the title reaches apiUpdateBlog as a PUT with nothing in it:
      the title would update a stored post over POST, but over PUT nothing is sent. */
  lemma DashboardEditLost(b: Blog)
    requires b.titulo != Some("Nuevo")
    ensures var sent := Form("Nuevo", "", "", "", "", None);
            !NothingSent(sent) && WithText(b, sent) != b && NothingSent(PostedForm("PUT", sent))
  {
  }

  /**
   * An empty file input is still a file entry (upload error 4): it gets an update
   * past the "nothing sent" test, and the update then writes '' into all five text columns.
   */
  lemma EmptyFileInputBlanksText(b: Blog)
    ensures var f := Form("", "", "", "", "", Some(Upload("", 4)));
            !NothingSent(f) && WithText(b, f) == b.(titulo := Some(""), resumen := Some(""), contenido := Some(""),
                                                    categoria := Some(""), fecha := Some(""))
  {
  }

  // ---------------------------------------------------------------- delete

  /** DELETE /api/blogs/<id>: a missing id is answered 404 before any file or row is touched. */
  method DeleteBlog(t: Table, id: int) returns (reply: Reply, removed: Option<string>)
    requires t.Valid()
    modifies t
    ensures t.Valid() && t.nextId == old(t.nextId)
    ensures id !in old(t.rows) ==> reply == Failed(404, "Blog no encontrado") && removed == None
                                   && t.rows == old(t.rows)
    ensures id in old(t.rows) ==> reply == Done("Blog e imagen eliminados correctamente")
                                  && removed == ImageFile(old(t.rows)[id].imagen)
                                  && t.rows == old(t.rows) - {id}
  {
    if id !in t.rows {
      return Failed(404, "Blog no encontrado"), None;
    }
    removed := ImageFile(t.rows[id].imagen);
    var changed := t.Delete(id);
    if changed == 0 {
      return Failed(404, "No se pudo eliminar el blog"), removed;
    }
    reply := Done("Blog e imagen eliminados correctamente");
  }

  // ---------------------------------------------------------------- popular blogs

  /** GET /api/blogs/populares */
  function GetPopulares(t: Table): (reply: Reply)
    reads t
    requires t.Valid()
    ensures reply == Listed(PopularListing(t.NewestFirstRows()), None)
    ensures |reply.blogs| <= 3 && NewestFirst(reply.blogs)
    ensures forall r :: r in reply.blogs ==> r.blog.esPopular && r in t.NewestFirstRows()
  {
    PopularListingNewestFirst(t.NewestFirstRows());
    Listed(PopularListing(t.NewestFirstRows()), None)
  }

  /**
   * PUT /api/blogs/<id>/popular. `esPopular` is the decoded JSON member, None when
   * absent or when the body is not JSON, which then unmarks the blog.
   */
  method TogglePopular(t: Table, logueado: bool, id: int, esPopular: Option<bool>) returns (reply: Reply)
    requires t.Valid()
    modifies t
    ensures t.Valid() && t.nextId == old(t.nextId)
    ensures !logueado ==> reply == Failed(401, "No autorizado") && t.rows == old(t.rows)
    ensures logueado && esPopular.GetOr(false) && old(PopularCount(t.rows)) >= 3 ==>
              reply == Failed(200, "Solo se pueden tener máximo 3 blogs populares") && t.rows == old(t.rows)
    ensures logueado && !(esPopular.GetOr(false) && old(PopularCount(t.rows)) >= 3) ==>
              t.rows == WithPopular(old(t.rows), id, esPopular.GetOr(false))
              && reply == Done(if esPopular.GetOr(false) then "Blog marcado como popular" else "Blog desmarcado como popular")
    ensures old(PopularCount(t.rows)) <= 3 ==> PopularCount(t.rows) <= 3
  {
    if !logueado {
      return Failed(401, "No autorizado");
    }
    var v := esPopular.GetOr(false);
    if v && PopularCount(t.rows) >= 3 {
      return Failed(200, "Solo se pueden tener máximo 3 blogs populares");
    }
    if PopularCount(t.rows) <= 3 { PopularBoundKept(t.rows, id, v); }
    if id in t.rows {
      var _ := t.Replace(id, t.rows[id].(esPopular := v));
    }
    reply := Done(if v then "Blog marcado como popular" else "Blog desmarcado como popular");
  }

  // ---------------------------------------------------------------- orphaned images

  /** The elements of `s` that `keep` admits, in order (array_diff followed by array_values). */
  function Filter(s: seq<string>, keep: string -> bool): (r: seq<string>)
    ensures forall x :: x in r <==> x in s && keep(x)
    ensures IsSubsequence(r, s) && |r| <= |s|
    decreases |s|
  {
    if |s| == 0 then []
    else
      var rest := Filter(s[1..], keep);
      assert forall x :: x in s <==> x == s[0] || x in s[1..];
      if keep(s[0]) then [s[0]] + rest
      else
        assert |rest| > 0 ==> rest[0] != s[0] by { if |rest| > 0 { assert rest[0] in rest; } }
        rest
  }

  /** The file names the table refers to, one per row with a truthy `imagen`. */
  function ReferencedIn(result: seq<Row>): seq<string> {
    if |result| == 0 then []
    else (if TruthyColumn(result[0].blog.imagen) then [StoredFileName(result[0].blog.imagen.value)] else [])
         + ReferencedIn(result[1..])
  }

  lemma {:induction false} ReferencedInIff(result: seq<Row>, x: string)
    ensures x in ReferencedIn(result) <==>
              exists r :: r in result && TruthyColumn(r.blog.imagen) && x == StoredFileName(r.blog.imagen.value)
    decreases |result|
  {
    if |result| > 0 {
      ReferencedInIff(result[1..], x);
      assert forall r :: r in result <==> r == result[0] || r in result[1..];
    }
  }

  /** The references collected row by row, as the handler's foreach does. */
  method CollectReferenced(result: seq<Row>) returns (referenced: seq<string>)
    ensures referenced == ReferencedIn(result)
  {
    referenced := [];
    var i := |result|;
    while i > 0
      invariant 0 <= i <= |result|
      invariant referenced == ReferencedIn(result[i..])
    {
      i := i - 1;
      assert result[i..][1..] == result[i + 1..];
      var img := result[i].blog.imagen;
      if TruthyColumn(img) {
        referenced := [StoredFileName(img.value)] + referenced;
      }
    }
  }

  /** The number of entries of `s` that are not in `failing`. */
  function CountRemovable(s: seq<string>, failing: set<string>): nat {
    if |s| == 0 then 0 else (if s[0] !in failing then 1 else 0) + CountRemovable(s[1..], failing)
  }

  /**
   * The removal loop: each orphan is unlinked in turn and counted when the unlink
   * succeeds (it fails for the names in `failing`).
   */
  method UnlinkAll(orphaned: seq<string>, failing: set<string>) returns (deletedCount: nat, removed: seq<string>)
    ensures deletedCount == CountRemovable(orphaned, failing) && deletedCount == |removed|
    ensures forall x :: x in removed <==> x in orphaned && x !in failing
  {
    deletedCount, removed := 0, [];
    var i := |orphaned|;
    while i > 0
      invariant 0 <= i <= |orphaned|
      invariant deletedCount == CountRemovable(orphaned[i..], failing) && deletedCount == |removed|
      invariant forall x :: x in removed <==> x in orphaned[i..] && x !in failing
    {
      i := i - 1;
      assert orphaned[i..][1..] == orphaned[i + 1..];
      assert forall x :: x in orphaned[i..] <==> x == orphaned[i] || x in orphaned[i + 1..];
      if orphaned[i] !in failing {
        removed := [orphaned[i]] + removed;
        deletedCount := deletedCount + 1;
      }
    }
  }

  /** The directory entries: scandir() without '.' and '..', nothing when the directory is missing. */
  function Entries(listing: Option<seq<string>>): (e: seq<string>)
    ensures forall x :: x in e <==> listing.Some? && x in listing.value && x != "." && x != ".."
  {
    if listing.Some? then Filter(listing.value, x => x != "." && x != "..") else []
  }

  /** array_diff(existing, referenced): the entries no reference names, in directory order. */
  function Orphans(existing: seq<string>, referenced: seq<string>): (o: seq<string>)
    ensures forall x :: x in o <==> x in existing && x !in referenced
  {
    Filter(existing, x => x !in referenced)
  }

  /**
   * POST /api/cleanup-images. `listing` is scandir() of the uploads directory, None
   * when it is missing (then nothing is orphaned); `failing` the names whose unlink fails.
   */
  method CleanupImages(t: Table, logueado: bool, listing: Option<seq<string>>, failing: set<string>)
    returns (reply: Reply, removed: seq<string>)
    requires t.Valid()
    ensures !logueado ==> reply == Failed(401, "No autorizado") && removed == []
    ensures logueado ==>
              var orphaned := Orphans(Entries(listing), ReferencedIn(t.AllRows()));
              reply == Cleaned(CountRemovable(orphaned, failing), orphaned)
              && (forall x :: x in removed <==> x in orphaned && x !in failing)
              && reply.deletedCount == |removed|
  {
    if !logueado {
      return Failed(401, "No autorizado"), [];
    }
    var referenced := CollectReferenced(t.AllRows());
    var orphaned := Orphans(Entries(listing), referenced);
    var deletedCount;
    deletedCount, removed := UnlinkAll(orphaned, failing);
    reply := Cleaned(deletedCount, orphaned);
  }

  /** A file is orphaned exactly when no row's truthy image path strips to its name. */
  lemma OrphanedIff(t: Table, x: string)
    requires t.Valid()
    ensures x !in ReferencedIn(t.AllRows()) <==>
              forall id :: id in t.rows && TruthyColumn(t.rows[id].imagen) ==> StoredFileName(t.rows[id].imagen.value) != x
  {
    ReferencedInIff(t.AllRows(), x);
  }

  // ---------------------------------------------------------------- routing

  /** The path after parse_url, with every '/admin_blog' removed. */
  function RoutePath(uriPath: string): string {
    RemoveAll(uriPath, "/admin_blog")
  }

  datatype Route =
    | StaticFile(relativePath: string)
    | LoginPage | DashboardPage | Login | Logout
    | ListBlogs | CreateBlogRoute | GetBlogById(id: nat) | UpdateBlogRoute(id: nat) | DeleteBlogRoute(id: nat)
    | TogglePopularRoute(id: nat) | PopularesRoute | CategoriasRoute | CleanupRoute
    | PingDb | DebugMysql | DebugPath
    | ApiNotFound(path: string)     // 404 with {ok: false, error: 'Ruta de API no encontrada: ' + path}
    | PageNotFound                  // 404 with a plain-text page

  /** The subject a pattern ending in `$` is matched on: a single trailing newline may follow the match. */
  function BeforeDollar(s: string): string {
    if |s| > 0 && s[|s| - 1] == '\n' then s[..|s| - 1] else s
  }

  /** The capture of ^/static/(.+)$ */
  function MatchStatic(path: string): (m: Option<string>)
    ensures m.Some? ==> |m.value| > 0 && '\n' !in m.value
  {
    var s := BeforeDollar(path);
    if "/static/" <= s && |s| > 8 && '\n' !in s[8..] then Some(s[8..]) else None
  }

  /** The id captured by ^prefix(\d+)suffix$ */
  function MatchId(path: string, prefix: string, suffix: string): Option<nat> {
    var s := BeforeDollar(path);
    if |s| > |prefix| + |suffix| && prefix <= s && s[|s| - |suffix|..] == suffix
       && AllDigits(s[|prefix|..|s| - |suffix|]) && '\n' !in suffix
    then Some(DecimalValue(s[|prefix|..|s| - |suffix|]))
    else None
  }

  /**
   * switch (true): the first case that holds wins. No page case and no debug case
   * starts with '/api/' and no API case starts with anything else, so splitting
   * the chain at that prefix keeps the order of the source's cases.
   */
  function RouteOf(verb: string, uriPath: string): Route {
    var p := RoutePath(uriPath);
    if MatchStatic(p).Some? then StaticFile(MatchStatic(p).value)
    else if "/api/" <= p then ApiRoute(verb, p)
    else PageRoute(verb, p)
  }

  function PageRoute(verb: string, p: string): Route {
    if p == "/" || p == "/admin" then LoginPage
    else if p == "/blog_dashboard" then DashboardPage
    else if p == "/acceso_login" && verb == "POST" then Login
    else if p == "/logout" then Logout
    else if p == "/ping_db" then PingDb
    else if p == "/debug_mysql" then DebugMysql
    else if p == "/debug_path" then DebugPath
    else PageNotFound
  }

  function ApiRoute(verb: string, p: string): Route {
    var plain, update, popular := MatchId(p, "/api/blogs/", ""), MatchId(p, "/api/blogs/", "/update"),
                                  MatchId(p, "/api/blogs/", "/popular");
    if p == "/api/blogs" && verb == "GET" then ListBlogs
    else if p == "/api/blogs" && verb == "POST" then CreateBlogRoute
    else if plain.Some? && verb == "GET" then GetBlogById(plain.value)
    else if plain.Some? && verb == "PUT" then UpdateBlogRoute(plain.value)
    else if update.Some? && verb == "POST" then UpdateBlogRoute(update.value)
    else if plain.Some? && verb == "DELETE" then DeleteBlogRoute(plain.value)
    else if popular.Some? && verb == "PUT" then TogglePopularRoute(popular.value)
    else if p == "/api/blogs/populares" && verb == "GET" then PopularesRoute
    else if p == "/api/categorias" && verb == "GET" then CategoriasRoute
    else if p == "/api/cleanup-images" && verb == "POST" then CleanupRoute
    else ApiNotFound(p)
  }

  /** Every unmatched path under /api/ is the JSON 404, every other unmatched path the text 404. */
  lemma {:induction false} NotFoundKinds(verb: string, uriPath: string)
    ensures RouteOf(verb, uriPath).ApiNotFound? ==> "/api/" <= RouteOf(verb, uriPath).path
    ensures RouteOf(verb, uriPath).PageNotFound? ==> !("/api/" <= RoutePath(uriPath))
  {
  }

  /** The '/admin_blog' prefix, written or not, leaves a path without an 'm' as it is. */
  lemma {:induction false} PathNormal(p: string, prefix: string)
    requires 'm' !in p
    requires prefix == "" || prefix == "/admin_blog"
    ensures RoutePath(prefix + p) == p
  {
    NoCharNoContains(p, "/admin_blog", 'm');
    if prefix == "" {
      assert prefix + p == p;
      RemoveAllAbsent(p, "/admin_blog");
    } else {
      RemoveAllAfterPrefix("/admin_blog", p);
    }
  }

  lemma NotStatic(p: string)
    requires "/api/" <= p
    ensures MatchStatic(p).None?
  {
    var s := BeforeDollar(p);
    assert s[1] == p[1] == 'a';
  }

  lemma {:induction false} DigitsLackM(digits: string, suffix: string)
    requires AllDigits(digits) && 'm' !in suffix
    ensures 'm' !in "/api/blogs/" + digits + suffix
  {
    var p := "/api/blogs/" + digits + suffix;
    forall i | 0 <= i < |p| ensures p[i] != 'm' {
      if 11 <= i < 11 + |digits| { assert p[i] == digits[i - 11]; }
      if i >= 11 + |digits| { assert p[i] == suffix[i - 11 - |digits|]; }
    }
  }

  lemma {:induction false} PlainIdMatch(digits: string)
    requires |digits| > 0 && AllDigits(digits)
    ensures var p := "/api/blogs/" + digits;
            MatchId(p, "/api/blogs/", "") == Some(DecimalValue(digits)) && p != "/api/blogs"
  {
    var p := "/api/blogs/" + digits;
    assert p[|p| - 1] == digits[|digits| - 1];
    assert BeforeDollar(p) == p;
    assert p[11..|p| - 0] == digits;
  }

  lemma {:induction false} SuffixIdMatch(digits: string, suffix: string, other: string)
    requires |digits| > 0 && AllDigits(digits)
    requires (suffix, other) in {("/update", "/popular"), ("/popular", "/update")}
    ensures var p := "/api/blogs/" + digits + suffix;
            MatchId(p, "/api/blogs/", suffix) == Some(DecimalValue(digits))
            && MatchId(p, "/api/blogs/", "").None? && MatchId(p, "/api/blogs/", other).None?
            && p != "/api/blogs" && p != "/api/blogs/populares"
  {
    var p := "/api/blogs/" + digits + suffix;
    assert p[|p| - 1] == suffix[|suffix| - 1] != '\n';
    assert BeforeDollar(p) == p;
    assert suffix[0] == '/' && '\n' !in suffix && suffix[|suffix| - 1] != 's';
    OwnSuffixMatches(digits, suffix, p);
    OtherSuffixMisses(digits, suffix, other, p);
  }

  lemma OwnSuffixMatches(digits: string, suffix: string, p: string)
    requires |digits| > 0 && AllDigits(digits)
    requires |suffix| > 0 && suffix[0] == '/' && '\n' !in suffix && suffix[|suffix| - 1] != 's'
    requires p == "/api/blogs/" + digits + suffix && BeforeDollar(p) == p
    ensures MatchId(p, "/api/blogs/", suffix) == Some(DecimalValue(digits))
    ensures MatchId(p, "/api/blogs/", "").None?
    ensures p != "/api/blogs" && p != "/api/blogs/populares"
  {
    SuffixCaptured(digits, suffix, p);
    PlainMisses(digits, suffix, p);
    assert p[|p| - 1] == suffix[|suffix| - 1];
  }

  lemma SuffixCaptured(digits: string, suffix: string, p: string)
    requires |digits| > 0 && AllDigits(digits) && '\n' !in suffix
    requires p == "/api/blogs/" + digits + suffix && BeforeDollar(p) == p
    ensures MatchId(p, "/api/blogs/", suffix) == Some(DecimalValue(digits))
  {
    assert p[|p| - |suffix|..] == suffix;
    assert p[11..|p| - |suffix|] == digits;
  }

  lemma PlainMisses(digits: string, suffix: string, p: string)
    requires |suffix| > 0 && suffix[0] == '/'
    requires p == "/api/blogs/" + digits + suffix && BeforeDollar(p) == p
    ensures MatchId(p, "/api/blogs/", "").None?
  {
    assert p[11..][|digits|] == suffix[0];
    assert p[11..|p| - 0] == p[11..];
  }

  lemma OtherSuffixMisses(digits: string, suffix: string, other: string, p: string)
    requires (suffix, other) in {("/update", "/popular"), ("/popular", "/update")}
    requires p == "/api/blogs/" + digits + suffix && BeforeDollar(p) == p
    ensures MatchId(p, "/api/blogs/", other).None?
  {
    assert p[|p| - |other|..] != other by {
      if suffix == "/update" { assert p[|p| - 8..][1] == p[|p| - 7] == suffix[0] == '/'; }
      else { assert p[|p| - 7] == suffix[1]; }
    }
  }

  /** An API path without an 'm' reaches the API cases, with or without the '/admin_blog' prefix. */
  lemma ApiReached(verb: string, p: string, prefix: string)
    requires "/api/" <= p && 'm' !in p
    requires prefix == "" || prefix == "/admin_blog"
    ensures RouteOf(verb, prefix + p) == ApiRoute(verb, p)
  {
    PathNormal(p, prefix);
    NotStatic(p);
  }

  /** A path the plain id pattern matches is dispatched on its verb alone. */
  lemma PlainIdDispatch(p: string, id: nat)
    requires MatchId(p, "/api/blogs/", "") == Some(id) && p != "/api/blogs"
    ensures ApiRoute("GET", p) == GetBlogById(id)
    ensures ApiRoute("PUT", p) == UpdateBlogRoute(id)
    ensures ApiRoute("DELETE", p) == DeleteBlogRoute(id)
  {
    assert "DELETE" != "GET" && "DELETE" != "PUT" && "DELETE" != "POST" by { assert "DELETE"[0] == 'D'; }
  }

  /** A blog id written in decimal, with or without the '/admin_blog' prefix, reaches its handler. */
  lemma {:induction false} IdRoutes(digits: string, prefix: string)
    requires |digits| > 0 && AllDigits(digits)
    requires prefix == "" || prefix == "/admin_blog"
    ensures RouteOf("GET", prefix + "/api/blogs/" + digits) == GetBlogById(DecimalValue(digits))
    ensures RouteOf("PUT", prefix + "/api/blogs/" + digits) == UpdateBlogRoute(DecimalValue(digits))
    ensures RouteOf("DELETE", prefix + "/api/blogs/" + digits) == DeleteBlogRoute(DecimalValue(digits))
  {
    var p := "/api/blogs/" + digits;
    DigitsLackM(digits, "");
    assert "/api/blogs/" + digits + "" == p;
    assert "/api/" <= p;
    PlainIdMatch(digits);
    PlainIdDispatch(p, DecimalValue(digits));
    assert prefix + "/api/blogs/" + digits == prefix + p;
    ApiReached("GET", p, prefix);
    ApiReached("PUT", p, prefix);
    ApiReached("DELETE", p, prefix);
  }

  /** The two id routes with a suffix reach their handlers. */
  lemma {:induction false} SuffixRoutes(digits: string, prefix: string)
    requires |digits| > 0 && AllDigits(digits)
    requires prefix == "" || prefix == "/admin_blog"
    ensures RouteOf("POST", prefix + "/api/blogs/" + digits + "/update") == UpdateBlogRoute(DecimalValue(digits))
    ensures RouteOf("PUT", prefix + "/api/blogs/" + digits + "/popular") == TogglePopularRoute(DecimalValue(digits))
  {
    var p1, p2 := "/api/blogs/" + digits + "/update", "/api/blogs/" + digits + "/popular";
    DigitsLackM(digits, "/update");
    DigitsLackM(digits, "/popular");
    assert "/api/" <= p1 && "/api/" <= p2;
    assert prefix + "/api/blogs/" + digits + "/update" == prefix + p1;
    assert prefix + "/api/blogs/" + digits + "/popular" == prefix + p2;
    SuffixIdMatch(digits, "/update", "/popular");
    SuffixIdMatch(digits, "/popular", "/update");
    ApiReached("POST", p1, prefix);
    ApiReached("PUT", p2, prefix);
  }

  /** "populares" is not an id, so none of the id patterns matches it. */
  lemma PopularesNoId(p: string)
    requires p == "/api/blogs/populares"
    ensures MatchId(p, "/api/blogs/", "").None?
    ensures MatchId(p, "/api/blogs/", "/update").None?
    ensures MatchId(p, "/api/blogs/", "/popular").None?
  {
    assert BeforeDollar(p) == p;
    assert !AllDigits(p[11..|p|]) by { assert p[11..|p|][0] == 'p'; }
    assert p[|p| - 1] == 's';
  }

  /** The popular listing is reached past the id patterns. */
  lemma PopularesReached()
    ensures RouteOf("GET", "/admin_blog/api/blogs/populares") == PopularesRoute
  {
    var p := "/api/blogs/populares";
    assert "/admin_blog/api/blogs/populares" == "/admin_blog" + p;
    assert 'm' !in p;
    ApiReached("GET", p, "/admin_blog");
    PopularesNoId(p);
    assert p != "/api/blogs";
  }

  // ---------------------------------------------------------------- static files

  const MimeTypes: map<string, string> :=
    map["css" := "text/css", "js" := "application/javascript", "png" := "image/png", "jpg" := "image/jpeg",
        "jpeg" := "image/jpeg", "gif" := "image/gif", "webp" := "image/webp", "svg" := "image/svg+xml",
        "ico" := "image/x-icon"]

  /** The Content-Type of a static file: the table entry for its lower-cased extension, else octet-stream. */
  function MimeType(relativePath: string): (m: string)
    ensures Lower(Extension("static/" + relativePath)) in MimeTypes ==> m == MimeTypes[Lower(Extension("static/" + relativePath))]
    ensures Lower(Extension("static/" + relativePath)) !in MimeTypes ==> m == "application/octet-stream"
  {
    var ext := Lower(Extension("static/" + relativePath));
    if ext in MimeTypes then MimeTypes[ext] else "application/octet-stream"
  }

  datatype StaticReply = StaticMissing | StaticServed(contentType: string, cacheControl: string)

  /** serveStaticFile: `present` is the existence and containment test made on the file system. */
  function ServeStatic(relativePath: string, present: bool): (r: StaticReply)
    ensures !present <==> r == StaticMissing
    ensures present ==> r.cacheControl == "public, max-age=3600" && r.contentType == MimeType(relativePath)
  {
    if !present then StaticMissing else StaticServed(MimeType(relativePath), "public, max-age=3600")
  }

  /** The extension of a path whose last component is `stem.e`. */
  lemma {:induction false} ExtensionOf(dir: string, stem: string, e: string)
    requires '/' !in stem && '/' !in e && '.' !in e && |e| > 0
    ensures Extension(dir + "/" + stem + "." + e) == e
  {
    var q := stem + "." + e;
    assert '/' !in q by {
      forall i | 0 <= i < |q| ensures q[i] != '/' {
        if i < |stem| { assert q[i] == stem[i]; }
        else if i > |stem| { assert q[i] == e[i - |stem| - 1]; }
      }
    }
    assert q[|q| - 1] == e[|e| - 1];
    assert dir + "/" + stem + "." + e == (dir + "/") + q;
    BasenameAfterSlash(dir, q);
    assert q[|stem|] == '.';
    AfterLastCharAppend(stem + ".", e, '.');
    assert AfterLastChar(stem + ".", '.') == [];
  }

  /** The base name of `dir/q` is `q` when `q` is a non-empty name without a slash. */
  lemma BasenameAfterSlash(dir: string, q: string)
    requires '/' !in q && |q| > 0
    ensures Basename((dir + "/") + q) == q
  {
    var full := (dir + "/") + q;
    assert full[|full| - 1] == q[|q| - 1];
    assert StripTrailingSlashes(full) == full;
    AfterLastCharAppend(dir + "/", q, '/');
    assert AfterLastChar(dir + "/", '/') == [];
  }

  /** A static file named stem.e is served with the table's type for e, in any letter case. */
  lemma {:induction false} MimeOfName(dir: string, stem: string, e: string)
    requires '/' !in stem && '/' !in e && '.' !in e && |e| > 0
    ensures MimeType(dir + "/" + stem + "." + e)
            == if Lower(e) in MimeTypes then MimeTypes[Lower(e)] else "application/octet-stream"
  {
    assert "static/" + (dir + "/" + stem + "." + e) == ("static/" + dir) + "/" + stem + "." + e;
    ExtensionOf("static/" + dir, stem, e);
  }
}
