/** `GET /sitemap.xml`: the seventeen fixed pages of the shop, then one
    page per product in stock, rendered as a `urlset` of the Sitemaps
    protocol 0.9. The product query and the current date are parameters. */
module Sitemap {
  import opened Common
  import Products

  const DEFAULT_SITE: string := "https://benicetiendanimal.victoriafp.online"
  const PRODUCT_PREFIX: string := "/producto/"
  const PRODUCT_PRIORITY: string := "0.8"
  const PRODUCT_CHANGEFREQ: string := "weekly"

  const XML_HEAD: string :=
    "<?xml version=\"1.0\" encoding=\"UTF-8\"?>\n<urlset xmlns=\"http://www.sitemaps.org/schemas/sitemap/0.9\">\n"
  const XML_TAIL: string := "\n</urlset>"

  /** One `<url>` of the sitemap; `lastmod` None is undefined. */
  datatype Page = Page(url: string, priority: string, changefreq: string, lastmod: Option<string>)

  const STATIC_PAGES: seq<Page> := [
    Page("/", "1.0", "daily", None),
    Page("/productos", "0.9", "daily", None),
    Page("/ofertas", "0.8", "daily", None),
    Page("/blog", "0.7", "weekly", None),
    Page("/recomendador", "0.7", "monthly", None),
    Page("/animales/perros", "0.8", "weekly", None),
    Page("/animales/gatos", "0.8", "weekly", None),
    Page("/animales/pajaros", "0.7", "weekly", None),
    Page("/animales/peces", "0.7", "weekly", None),
    Page("/animales/roedores", "0.7", "weekly", None),
    Page("/info/contacto", "0.5", "monthly", None),
    Page("/info/sobre-nosotros", "0.5", "monthly", None),
    Page("/info/envios", "0.5", "monthly", None),
    Page("/info/faq", "0.5", "monthly", None),
    Page("/legal/privacidad", "0.3", "yearly", None),
    Page("/legal/terminos", "0.3", "yearly", None),
    Page("/legal/cookies", "0.3", "yearly", None)
  ]

  /** `.replace(/\/$/, '')`: one trailing slash is removed, no more. */
  function StripSlash(s: string): (r: string)
    ensures EndsWith(s, "/") ==> r == s[..|s| - 1]
    ensures !EndsWith(s, "/") ==> r == s
    ensures |r| <= |s| && r == s[..|r|]
  {
    if |s| > 0 && s[|s| - 1] == '/' then s[..|s| - 1] else s
  }

  lemma StripSlashOnce(s: string)
    ensures StripSlash(s + "/") == s
    ensures StripSlash(s + "//") == s + "/"
  {
    assert (s + "/")[..|s|] == s;
    assert (s + "//")[..|s| + 1] == s + "/";
  }

  /** The site base: the configured URL, else Astro's origin, else the
      shop's default domain, without the trailing slash. */
  function Site(configured: Option<string>, astroOrigin: Option<string>): (site: string)
    ensures site == StripSlash(FirstNonEmpty([configured, astroOrigin], DEFAULT_SITE))
  {
    FirstNonEmptyTwo(configured, astroOrigin, DEFAULT_SITE);
    StripSlash(OrElse(OrElse(configured, astroOrigin), Some(DEFAULT_SITE)).value)
  }

  /** A product's `updated_at`: null, a text `new Date` cannot parse (its
      `toISOString` throws), or a timestamp given in the ISO form
      `toISOString` produces. */
  datatype UpdatedAt = NoDate | Unparseable | At(iso: string)

  datatype ProductRow = ProductRow(slug: string, updatedAt: UpdatedAt)

  /** `toISOString().split('T')[0]`: the calendar date. */
  function DatePart(iso: string): (d: string)
    ensures StartsWith(iso, d) && forall i :: 0 <= i < |d| ==> d[i] != 'T'
  {
    BeforeFirst(iso, 'T')
  }

  function ProductPage(p: ProductRow): (page: Page)
    requires !p.updatedAt.Unparseable?
    ensures page.url == PRODUCT_PREFIX + p.slug
    ensures page.priority == PRODUCT_PRIORITY && page.changefreq == PRODUCT_CHANGEFREQ
    ensures page.lastmod == if p.updatedAt.At? then Some(DatePart(p.updatedAt.iso)) else None
  {
    Page(PRODUCT_PREFIX + p.slug, PRODUCT_PRIORITY, PRODUCT_CHANGEFREQ,
         if p.updatedAt.At? then Some(DatePart(p.updatedAt.iso)) else None)
  }

  predicate AllDated(rows: seq<ProductRow>) {
    forall i :: 0 <= i < |rows| ==> !rows[i].updatedAt.Unparseable?
  }

  /** The product pages in query order. `rows` is None when the query gave
      no data or failed; an unparseable date throws inside the `map`, which
      the same `catch` absorbs, so then there are no product pages at all. */
  function ProductPages(rows: Option<seq<ProductRow>>): (pages: seq<Page>)
    ensures rows.None? || !AllDated(rows.value) ==> pages == []
    ensures rows.Some? && AllDated(rows.value) ==>
              |pages| == |rows.value| && forall i :: 0 <= i < |pages| ==> pages[i] == ProductPage(rows.value[i])
  {
    if rows.None? || !AllDated(rows.value) then []
    else seq(|rows.value|, i requires 0 <= i < |rows.value| => ProductPage(rows.value[i]))
  }

  /** One `<url>` element. */
  function Entry(site: string, page: Page, today: string): string {
    "  <url>\n    <loc>" + site + page.url + "</loc>\n    <lastmod>" + OrElse(page.lastmod, Some(today)).value +
    "</lastmod>\n    <changefreq>" + page.changefreq + "</changefreq>\n    <priority>" + page.priority +
    "</priority>\n  </url>"
  }

  function Entries(site: string, pages: seq<Page>, today: string): (es: seq<string>)
    ensures |es| == |pages| && forall i :: 0 <= i < |pages| ==> es[i] == Entry(site, pages[i], today)
  {
    seq(|pages|, i requires 0 <= i < |pages| => Entry(site, pages[i], today))
  }

  /** `join('\n')`. */
  function Join(xs: seq<string>): string {
    if |xs| == 0 then "" else if |xs| == 1 then xs[0] else xs[0] + "\n" + Join(xs[1..])
  }

  /** Joining two non-empty runs puts one separator between them. */
  lemma {:induction false} JoinAppend(a: seq<string>, b: seq<string>)
    requires |a| > 0 && |b| > 0
    ensures Join(a + b) == Join(a) + "\n" + Join(b)
  {
    if |a| == 1 {
      assert (a + b)[1..] == b;
    } else {
      assert (a + b)[1..] == a[1..] + b;
      JoinAppend(a[1..], b);
    }
  }

  lemma EntriesAppend(site: string, a: seq<Page>, b: seq<Page>, today: string)
    ensures Entries(site, a + b, today) == Entries(site, a, today) + Entries(site, b, today)
  {
  }

  /** The document. */
  function Render(site: string, pages: seq<Page>, today: string): string {
    XML_HEAD + Join(Entries(site, pages, today)) + XML_TAIL
  }

  /** `GET`. */
  function Get(configured: Option<string>, astroOrigin: Option<string>, rows: Option<seq<ProductRow>>,
               today: string): string {
    Render(Site(configured, astroOrigin), STATIC_PAGES + ProductPages(rows), today)
  }

  /** Rendering two non-empty runs of pages joins their entries with one
      newline between the runs. */
  lemma RenderAppend(site: string, a: seq<Page>, b: seq<Page>, today: string)
    requires |a| > 0 && |b| > 0
    ensures Render(site, a + b, today) ==
              XML_HEAD + (Join(Entries(site, a, today)) + "\n" + Join(Entries(site, b, today))) + XML_TAIL
  {
    EntriesAppend(site, a, b, today);
    JoinAppend(Entries(site, a, today), Entries(site, b, today));
  }

  /** The static pages come first and the product pages after them, in
      query order, one newline apart. */
  lemma StaticThenProducts(configured: Option<string>, astroOrigin: Option<string>, rows: seq<ProductRow>,
                           today: string)
    requires |rows| > 0 && AllDated(rows)
    ensures var site := Site(configured, astroOrigin);
            Get(configured, astroOrigin, Some(rows), today) ==
              XML_HEAD + (Join(Entries(site, STATIC_PAGES, today)) + "\n" +
                          Join(Entries(site, ProductPages(Some(rows)), today))) + XML_TAIL
  {
    RenderAppend(Site(configured, astroOrigin), STATIC_PAGES, ProductPages(Some(rows)), today);
  }

  /** Without product data, or with a date that cannot be read, the sitemap
      holds the static pages only. */
  lemma StaticOnlyOnFailure(configured: Option<string>, astroOrigin: Option<string>, rows: Option<seq<ProductRow>>,
                            today: string)
    requires rows.None? || !AllDated(rows.value)
    ensures Get(configured, astroOrigin, rows, today) == Render(Site(configured, astroOrigin), STATIC_PAGES, today)
  {
    assert STATIC_PAGES + [] == STATIC_PAGES;
  }

  /** The `changefreq` values the protocol allows. */
  predicate Changefreq(s: string) {
    s == "always" || s == "hourly" || s == "daily" || s == "weekly" || s == "monthly" || s == "yearly" ||
    s == "never"
  }

  /** A priority between 0.0 and 1.0 written with one decimal. */
  predicate Priority(s: string) {
    s == "1.0" || (|s| == 3 && s[0] == '0' && s[1] == '.' && IsDigit(s[2]))
  }

  /** Every page of the sitemap carries values the protocol allows. */
  lemma PagesConform(rows: Option<seq<ProductRow>>)
    ensures forall i :: 0 <= i < |STATIC_PAGES + ProductPages(rows)| ==>
              Changefreq((STATIC_PAGES + ProductPages(rows))[i].changefreq) &&
              Priority((STATIC_PAGES + ProductPages(rows))[i].priority)
  {
    var all := STATIC_PAGES + ProductPages(rows);
    forall i | 0 <= i < |all|
      ensures Changefreq(all[i].changefreq) && Priority(all[i].priority)
    {
      if i >= |STATIC_PAGES| {
        assert all[i] == ProductPages(rows)[i - |STATIC_PAGES|];
      }
    }
  }

  /** The characters XML requires to be escaped in text. */
  predicate XmlSpecial(c: char) {
    c == '<' || c == '>' || c == '&' || c == '\'' || c == '"'
  }

  /** The product URLs are written into `<loc>` unescaped; for slugs of the
      shape the product routes generate, nothing needs escaping. */
  lemma SlugLocSafe(p: ProductRow)
    requires !p.updatedAt.Unparseable? && Products.IsSlug(p.slug)
    ensures forall i :: 0 <= i < |ProductPage(p).url| ==> !XmlSpecial(ProductPage(p).url[i])
  {
    var url := ProductPage(p).url;
    forall i | 0 <= i < |url|
      ensures !XmlSpecial(url[i])
    {
      if i >= |PRODUCT_PREFIX| {
        assert url[i] == p.slug[i - |PRODUCT_PREFIX|];
      }
    }
  }
}
