/**
 * The blog API of the Flask back-end (admin_blog/app.py): the upload-extension
 * test, the listing with its dashboard pagination, create, update, delete, the
 * popular toggle and listing, and the orphaned-image cleanup.
 *
 * Form values are Python strings or None; the upload service is a parameter
 * (its URL, or None when it raises), and so are the session flag and the
 * upload directory's listing. Files the handlers remove are returned by name.
 */
module BlogFlask {
  import opened Wrappers
  import opened Text
  import opened BlogTable

  /** The extensions allowed when ALLOWED_EXTENSIONS is unset. */
  const DefaultAllowed: set<string> := {"png", "jpg", "jpeg", "gif", "webp"}

  /** Python truthiness of an optional string: present and non-empty. */
  predicate Truthy(s: Option<string>) {
    s.Some? && s.value != ""
  }

  /** allowed_file: a '.' occurs and the lower-cased text after the last one is allowed. */
  function AllowedFile(allowed: set<string>, filename: string): (ok: bool)
    ensures ok ==> '.' in filename
  {
    '.' in filename && Lower(AfterLastChar(filename, '.')) in allowed
  }

  /** The extension checked is exactly the text after the one '.' that no later '.' follows. */
  lemma {:induction false} AllowedFileIff(allowed: set<string>, filename: string)
    ensures AllowedFile(allowed, filename) <==>
              exists k :: 0 <= k < |filename| && filename[k] == '.' && '.' !in filename[k + 1..]
                          && Lower(filename[k + 1..]) in allowed
  {
    if AllowedFile(allowed, filename) {
      var i := LastIndexOfChar(filename, '.');
      assert filename[i + 1..] == AfterLastChar(filename, '.');
    }
    if exists k :: 0 <= k < |filename| && filename[k] == '.' && '.' !in filename[k + 1..]
                   && Lower(filename[k + 1..]) in allowed {
      var k :| 0 <= k < |filename| && filename[k] == '.' && '.' !in filename[k + 1..]
               && Lower(filename[k + 1..]) in allowed;
      LastIndexOfCharUnique(filename, '.', k);
      assert filename[k + 1..] == AfterLastChar(filename, '.');
    }
  }

  /** An uploaded file as werkzeug gives it; it is falsy when its filename is empty. */
  datatype Upload = Upload(filename: string)

  predicate FileGiven(f: Option<Upload>) {
    f.Some? && f.value.filename != ""
  }

  /** save_image: the upload service's URL, or None for a missing, refused or failed upload. */
  function SaveImage(allowed: set<string>, f: Option<Upload>, serviceUrl: Option<string>): (r: Option<string>)
    ensures r.Some? <==> FileGiven(f) && AllowedFile(allowed, f.value.filename) && serviceUrl.Some?
    ensures r.Some? ==> r == serviceUrl
  {
    if !FileGiven(f) then None
    else if !AllowedFile(allowed, f.value.filename) then None
    else serviceUrl
  }

  // ---------------------------------------------------------------- listing

  /**
   * `request.args.get(name, default, type=...)`: page and per_page arrive as the
   * integer of their text, or None when absent or not an integer; dashboard is
   * bool() of its text, so any non-empty text, "false" included, turns it on.
   */
  datatype ListArgs = ListArgs(page: Option<int>, perPage: Option<int>, dashboard: Option<string>)

  predicate DashboardFlag(arg: Option<string>) { Truthy(arg) }

  lemma DashboardPageFacts(sorted: seq<Row>, page: int, perPage: nat)
    requires perPage > 0 && Offset(page, perPage) >= 0
    ensures PageCount(|sorted|, perPage) * perPage >= |sorted|
    ensures (PageCount(|sorted|, perPage) - 1) * perPage < |sorted| || |sorted| == 0
    ensures page >= 1 ==> (|Window(sorted, perPage, Offset(page, perPage) as nat)| > 0
                           <==> page <= PageCount(|sorted|, perPage))
  {
    PageCountIsCeiling(|sorted|, perPage);
    if page >= 1 { PageNonEmptyIff(sorted, page, perPage); }
  }

  /**
   * GET /api/blogs. Without the dashboard flag every row, newest first. With it, the
   * rows from offset (page - 1) * per_page, at most per_page of them, with page and
   * per_page echoed; a negative LIMIT or OFFSET makes the query fail, and per_page 0
   * fails the page count with ZeroDivisionError, which the handler catches.
   */
  function GetBlogs(t: Table, args: ListArgs): (reply: Reply)
    reads t
    requires t.Valid()
    ensures !DashboardFlag(args.dashboard) ==> reply == Listed(t.NewestFirstRows(), None)
    ensures DashboardFlag(args.dashboard) ==>
              var page, perPage, sorted := args.page.GetOr(1), args.perPage.GetOr(6), t.NewestFirstRows();
              (perPage < 0 || Offset(page, perPage) < 0 ==> reply == DbFailure)
              && (perPage == 0 ==> reply == Failed(200, "integer division or modulo by zero"))
              && (perPage > 0 && Offset(page, perPage) >= 0 ==>
                    reply == Listed(Window(sorted, perPage, Offset(page, perPage)),
                                    Some(Pagination(page, perPage, PageCount(|sorted|, perPage), |sorted|))))
    ensures reply.Listed? && reply.pagination.Some? ==> SoundPage(reply, |t.NewestFirstRows()|)
  {
    var sorted := t.NewestFirstRows();
    if !DashboardFlag(args.dashboard) then Listed(sorted, None)
    else PagedListing(sorted, args.page.GetOr(1), args.perPage.GetOr(6))
  }

  /** The dashboard branch once page and per_page are read. */
  function PagedListing(sorted: seq<Row>, page: int, perPage: int): (reply: Reply)
    ensures perPage < 0 || Offset(page, perPage) < 0 ==> reply == DbFailure
    ensures perPage == 0 ==> reply == Failed(200, "integer division or modulo by zero")
    ensures perPage > 0 && Offset(page, perPage) >= 0 ==>
              reply == Listed(Window(sorted, perPage, Offset(page, perPage)),
                              Some(Pagination(page, perPage, PageCount(|sorted|, perPage), |sorted|)))
              && SoundPage(reply, |sorted|)
  {
    var offset := Offset(page, perPage);
    if perPage < 0 || offset < 0 then DbFailure          // a negative LIMIT or OFFSET is an SQL error
    else if perPage == 0 then Failed(200, "integer division or modulo by zero")
    else
      DashboardPageFacts(sorted, page, perPage);
      Listed(Window(sorted, perPage, offset), Some(Pagination(page, perPage, PageCount(|sorted|, perPage), |sorted|)))
  }

  // ---------------------------------------------------------------- create and update

  /** The multipart form of create and update: each field a string or None, and the file. */
  datatype Form = Form(titulo: Option<string>, resumen: Option<string>, contenido: Option<string>,
                       categoria: Option<string>, fecha: Option<string>, imagen: Option<Upload>)

  /** Create goes ahead only when all six inputs, the image included, are given and non-empty. */
  predicate CreateAccepted(f: Form) {
    Truthy(f.titulo) && Truthy(f.resumen) && Truthy(f.contenido) && Truthy(f.categoria)
    && FileGiven(f.imagen) && Truthy(f.fecha)
  }

  /** Update goes ahead unless all six inputs are missing or empty. */
  predicate UpdateAccepted(f: Form) {
    Truthy(f.titulo) || Truthy(f.resumen) || Truthy(f.contenido) || Truthy(f.categoria)
    || FileGiven(f.imagen) || Truthy(f.fecha)
  }

  /** POST /api/blogs. The image may still be stored as NULL when the upload is refused or fails. */
  method CreateBlog(t: Table, allowed: set<string>, f: Form, serviceUrl: Option<string>) returns (reply: Reply)
    requires t.Valid()
    modifies t
    ensures t.Valid()
    ensures !CreateAccepted(f) ==> reply == Failed(200, "faltan datos")
                                   && t.rows == old(t.rows) && t.nextId == old(t.nextId)
    ensures CreateAccepted(f) ==>
              reply == Done("blog agregado de manera correcta")
              && t.rows == old(t.rows)[old(t.nextId) := Blog(f.titulo, f.resumen, f.contenido, f.categoria,
                                                              SaveImage(allowed, f.imagen, serviceUrl), f.fecha, false)]
              && t.nextId == old(t.nextId) + 1
  {
    if !CreateAccepted(f) {
      return Failed(200, "faltan datos");
    }
    var path := SaveImage(allowed, f.imagen, serviceUrl);
    var _ := t.Insert(Blog(f.titulo, f.resumen, f.contenido, f.categoria, path, f.fecha, false));
    reply := Done("blog agregado de manera correcta");
  }

  /** The row after UPDATE ... SET titulo, resumen, contenido, categoria, fecha: absent inputs write NULL. */
  function WithText(b: Blog, f: Form): Blog {
    b.(titulo := f.titulo, resumen := f.resumen, contenido := f.contenido, categoria := f.categoria, fecha := f.fecha)
  }

  /** The upload file behind a stored image path, when the path is non-empty. */
  function ImageFile(imagen: Option<string>): Option<string> {
    if Truthy(imagen) then Some(StoredFileName(imagen.value)) else None
  }

  /**
   * PUT /api/blogs/<id>. With a new image, the old image's file is removed first and
   * all six columns are written; without one, `imagen` is kept. The 404 comes from
   * the count of changed rows, so it also answers an update that changes nothing.
   */
  method UpdateBlog(t: Table, allowed: set<string>, id: int, f: Form, serviceUrl: Option<string>)
    returns (reply: Reply, removed: Option<string>)
    requires t.Valid()
    modifies t
    ensures t.Valid() && t.nextId == old(t.nextId)
    ensures !UpdateAccepted(f) ==> reply == Failed(200, "no se modifico ningun dato") && removed == None
                                   && t.rows == old(t.rows)
    ensures UpdateAccepted(f) && id !in old(t.rows) ==>
              reply == Failed(404, "no se encontró el blog") && removed == None && t.rows == old(t.rows)
    ensures UpdateAccepted(f) && id in old(t.rows) ==>
              var before := old(t.rows)[id];
              var after := if FileGiven(f.imagen)
                           then WithText(before, f).(imagen := SaveImage(allowed, f.imagen, serviceUrl))
                           else WithText(before, f);
              t.rows == old(t.rows)[id := after]
              && removed == (if FileGiven(f.imagen) then ImageFile(before.imagen) else None)
              && reply == (if after == before then Failed(404, "no se encontró el blog")
                           else Done("Blog actualizado correctamente"))
  {
    removed := None;
    if !UpdateAccepted(f) {
      return Failed(200, "no se modifico ningun dato"), None;
    }
    var changed;
    if FileGiven(f.imagen) {
      var oldImage := if id in t.rows then t.rows[id].imagen else None;
      var path := SaveImage(allowed, f.imagen, serviceUrl);
      removed := ImageFile(oldImage);
      if id in t.rows {
        changed := t.Replace(id, WithText(t.rows[id], f).(imagen := path));
      } else {
        changed := 0;
      }
    } else {
      if id in t.rows {
        changed := t.Replace(id, WithText(t.rows[id], f));
      } else {
        changed := 0;
      }
    }
    if changed == 0 {
      return Failed(404, "no se encontró el blog"), removed;
    }
    reply := Done("Blog actualizado correctamente");
  }

  /**
   * An accepted update of an existing blog that sends no image and the text it already
   * has changes no row, so it is answered 404 and leaves the table and the files alone.
   */
  method UnchangedUpdateIs404(t: Table, allowed: set<string>, id: int, f: Form, serviceUrl: Option<string>)
    returns (reply: Reply, removed: Option<string>)
    requires t.Valid() && id in t.rows
    requires !FileGiven(f.imagen) && UpdateAccepted(f)
    requires f.titulo == t.rows[id].titulo && f.resumen == t.rows[id].resumen && f.contenido == t.rows[id].contenido
             && f.categoria == t.rows[id].categoria && f.fecha == t.rows[id].fecha
    modifies t
    ensures reply == Failed(404, "no se encontró el blog") && removed == None
    ensures t.rows == old(t.rows) && t.nextId == old(t.nextId)
  {
    assert WithText(t.rows[id], f) == t.rows[id];
    reply, removed := UpdateBlog(t, allowed, id, f, serviceUrl);
  }

  // ---------------------------------------------------------------- delete

  /** DELETE /api/blogs/<id>: a missing id is answered 404 before any file or row is touched. */
  method DeleteBlog(t: Table, id: int) returns (reply: Reply, removed: Option<string>)
    requires t.Valid()
    modifies t
    ensures t.Valid() && t.nextId == old(t.nextId)
    ensures id !in old(t.rows) ==> reply == Failed(404, "Blog no encontrado") && removed == None
                                   && t.rows == old(t.rows)
    ensures id in old(t.rows) ==> reply == Done("Blog e imagen eliminados correctamente")
                                  && removed == ImageFile(old(t.rows)[id].imagen)
                                  && t.rows == old(t.rows) - {id}
  {
    if id !in t.rows {
      return Failed(404, "Blog no encontrado"), None;
    }
    removed := ImageFile(t.rows[id].imagen);
    var changed := t.Delete(id);
    if changed == 0 {
      return Failed(404, "No se pudo eliminar el blog"), removed;
    }
    reply := Done("Blog e imagen eliminados correctamente");
  }

  // ---------------------------------------------------------------- popular blogs

  lemma PopularListingFromTable(t: Table)
    requires t.Valid()
    ensures NewestFirst(PopularListing(t.NewestFirstRows()))
    ensures forall r :: r in PopularListing(t.NewestFirstRows()) ==> r.id in t.rows && t.rows[r.id] == r.blog
  {
    var sorted := t.NewestFirstRows();
    PopularListingNewestFirst(sorted);
    forall r | r in PopularListing(sorted) ensures r.id in t.rows && t.rows[r.id] == r.blog {
      assert r in multiset(sorted);
      assert r in t.AllRows();
    }
  }

  /** GET /api/blogs/populares */
  function GetPopulares(t: Table): (reply: Reply)
    reads t
    requires t.Valid()
    ensures reply == Listed(PopularListing(t.NewestFirstRows()), None)
    ensures |reply.blogs| <= 3 && NewestFirst(reply.blogs)
    ensures forall r :: r in reply.blogs ==> r.blog.esPopular && r.id in t.rows && t.rows[r.id] == r.blog
  {
    var sorted := t.NewestFirstRows();
    PopularListingFromTable(t);
    Listed(PopularListing(sorted), None)
  }

  /**
   * PUT /api/blogs/<id>/popular. `esPopular` is the JSON member, None when absent.
   * Marking is refused while three blogs, possibly the target itself, are popular;
   * unmarking always goes ahead; a missing id still answers success.
   */
  method TogglePopular(t: Table, logueado: bool, id: int, esPopular: Option<bool>) returns (reply: Reply)
    requires t.Valid()
    modifies t
    ensures t.Valid() && t.nextId == old(t.nextId)
    ensures !logueado ==> reply == Failed(401, "No autorizado") && t.rows == old(t.rows)
    ensures logueado && esPopular.GetOr(false) && old(PopularCount(t.rows)) >= 3 ==>
              reply == Failed(200, "Solo se pueden tener máximo 3 blogs populares") && t.rows == old(t.rows)
    ensures logueado && !(esPopular.GetOr(false) && old(PopularCount(t.rows)) >= 3) ==>
              t.rows == WithPopular(old(t.rows), id, esPopular.GetOr(false))
              && reply == Done(if esPopular.GetOr(false) then "Blog marcado como popular" else "Blog desmarcado como popular")
    ensures old(PopularCount(t.rows)) <= 3 ==> PopularCount(t.rows) <= 3
  {
    if !logueado {
      return Failed(401, "No autorizado");
    }
    var v := esPopular.GetOr(false);
    if v && PopularCount(t.rows) >= 3 {
      return Failed(200, "Solo se pueden tener máximo 3 blogs populares");
    }
    if PopularCount(t.rows) <= 3 { PopularBoundKept(t.rows, id, v); }
    if id in t.rows {
      var _ := t.Replace(id, t.rows[id].(esPopular := v));
    }
    reply := Done(if v then "Blog marcado como popular" else "Blog desmarcado como popular");
  }

  // ---------------------------------------------------------------- orphaned images

  /** The file names the table refers to: every non-empty `imagen` with the uploads prefix removed. */
  function Referenced(rows: map<int, Blog>): set<string> {
    set id | id in rows && Truthy(rows[id].imagen) :: StoredFileName(rows[id].imagen.value)
  }

  /** The references collected row by row from SELECT imagen FROM blog WHERE imagen IS NOT NULL. */
  method CollectReferenced(result: seq<Row>) returns (referenced: set<string>)
    ensures referenced == set k | 0 <= k < |result| && Truthy(result[k].blog.imagen)
                                :: StoredFileName(result[k].blog.imagen.value)
  {
    referenced := {};
    var i := 0;
    while i < |result|
      invariant 0 <= i <= |result|
      invariant referenced == set k | 0 <= k < i && Truthy(result[k].blog.imagen)
                                  :: StoredFileName(result[k].blog.imagen.value)
    {
      var img := result[i].blog.imagen;
      if Truthy(img) {
        referenced := referenced + {StoredFileName(img.value)};
      }
      i := i + 1;
    }
  }

  lemma CollectedAreReferenced(t: Table)
    requires t.Valid()
    ensures Referenced(t.rows) == set k | 0 <= k < |t.AllRows()| && Truthy(t.AllRows()[k].blog.imagen)
                                  :: StoredFileName(t.AllRows()[k].blog.imagen.value)
  {
    var s := t.AllRows();
    forall x | x in Referenced(t.rows)
      ensures x in set k | 0 <= k < |s| && Truthy(s[k].blog.imagen) :: StoredFileName(s[k].blog.imagen.value)
    {
      var id :| id in t.rows && Truthy(t.rows[id].imagen) && x == StoredFileName(t.rows[id].imagen.value);
      assert Row(id, t.rows[id]) in s;
      var k :| 0 <= k < |s| && s[k] == Row(id, t.rows[id]);
    }
  }

  /**
   * The removal loop: every orphan is tried once, in some order; the ones in
   * `undeletable` fail, the others are removed and counted.
   */
  method RemoveOrphans(orphaned: set<string>, undeletable: set<string>)
    returns (order: seq<string>, removed: set<string>, deletedCount: nat)
    ensures forall x :: x in order <==> x in orphaned
    ensures Distinct(order)
    ensures removed == orphaned - undeletable && deletedCount == |removed|
  {
    var remaining := orphaned;
    order, removed, deletedCount := [], {}, 0;
    while remaining != {}
      invariant remaining <= orphaned
      invariant forall x :: x in order <==> x in orphaned && x !in remaining
      invariant Distinct(order)
      invariant forall x :: x in removed <==> x in orphaned && x !in remaining && x !in undeletable
      invariant deletedCount == |removed|
      decreases |remaining|
    {
      var name :| name in remaining;
      AppendFresh(order, name);
      order := order + [name];
      if name !in undeletable {
        removed := removed + {name};
        deletedCount := deletedCount + 1;
      }
      remaining := remaining - {name};
    }
    assert removed == orphaned - undeletable;
  }

  /**
   * POST /api/cleanup-images. `uploads` is the uploads directory's listing (None when
   * the directory is missing) and `undeletable` the files whose removal fails. Every
   * present file that no row refers to is removed; `deletedCount` counts the removals
   * that succeeded.
   */
  method CleanupImages(t: Table, logueado: bool, uploads: Option<set<string>>, undeletable: set<string>)
    returns (reply: Reply, removed: set<string>)
    requires t.Valid()
    ensures !logueado ==> reply == Failed(401, "No autorizado") && removed == {}
    ensures logueado && uploads.None? ==> reply == Failed(200, "Directorio uploads no encontrado") && removed == {}
    ensures logueado && uploads.Some? ==>
              reply.Cleaned?
              && (forall x :: x in reply.orphaned <==> x in uploads.value && x !in Referenced(t.rows))
              && Distinct(reply.orphaned)
              && removed == uploads.value - Referenced(t.rows) - undeletable
              && reply.deletedCount == |removed|
  {
    if !logueado {
      return Failed(401, "No autorizado"), {};
    }
    var referenced := CollectReferenced(t.AllRows());
    CollectedAreReferenced(t);
    if uploads.None? {
      return Failed(200, "Directorio uploads no encontrado"), {};
    }
    var order, deletedCount;
    order, removed, deletedCount := RemoveOrphans(uploads.value - referenced, undeletable);
    reply := Cleaned(deletedCount, order);
  }
}
