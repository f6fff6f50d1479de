/** The admin product form: the values it starts from, the sizes field
    (edited as one comma-separated text and sent as a list), and where the
    form is submitted. */
module ProductForm {
  import opened Wrappers
  import opened Text

  /** The fields of an existing product the modelled part of the form reads.
      `is_active` and the sizes may be null in a database row. */
  datatype Product = Product(
    id: string,
    name: string,
    team: string,
    season: string,
    kind: string,
    sizes: Option<seq<string>>,
    isActive: Option<bool>,
    imageUrl: Option<string>)

  datatype FormData = FormData(
    name: string,
    team: string,
    season: string,
    kind: string,
    sizesText: string,
    isActive: bool,
    imageUrl: string)

  datatype Target = Target(url: string, httpMethod: string)

  const DefaultSeason: string := "24/25"
  const DefaultKind: string := "home"
  const DefaultSizesText: string := "P, M, G, GG"
  const SizesSeparator: string := ", "
  const ProductsUrl: string := "/api/products"

  /** `a || b` on strings: an empty string is falsy. */
  function OrElse(a: string, b: string): string {
    if a != "" then a else b
  }

  /** The text the sizes field starts with: the sizes joined by ", ", unless
      that text is empty. */
  function InitialSizesText(sizes: Option<seq<string>>): (t: string)
    ensures t != ""
    ensures sizes.Some? && Join(sizes.value, SizesSeparator) != "" ==> t == Join(sizes.value, SizesSeparator)
    ensures sizes.None? || Join(sizes.value, SizesSeparator) == "" ==> t == DefaultSizesText
  {
    if sizes.Some? then OrElse(Join(sizes.value, SizesSeparator), DefaultSizesText) else DefaultSizesText
  }

  /** The joined text is empty only for no sizes or for one empty size. */
  lemma {:induction false} JoinEmpty(parts: seq<string>)
    ensures Join(parts, SizesSeparator) == "" <==> parts == [] || parts == [""]
  {
    if |parts| > 1 {
      assert |Join(parts, SizesSeparator)| >= |SizesSeparator|;
    }
  }

  /** `useState({...})`: an edited product's values, with the create-mode
      defaults where a value is empty or missing. */
  function InitialForm(product: Option<Product>): (f: FormData)
    ensures product.None? ==> f == FormData("", "", DefaultSeason, DefaultKind, DefaultSizesText, true, "")
    ensures product.Some? ==>
              var p := product.value;
              && f.name == p.name && f.team == p.team
              && (p.season != "" ==> f.season == p.season) && (p.season == "" ==> f.season == DefaultSeason)
              && (p.kind != "" ==> f.kind == p.kind) && (p.kind == "" ==> f.kind == DefaultKind)
              && f.sizesText == InitialSizesText(p.sizes)
              && f.isActive == p.isActive.GetOr(true)
              && f.imageUrl == p.imageUrl.GetOr("")
  {
    match product
    case None => FormData("", "", DefaultSeason, DefaultKind, DefaultSizesText, true, "")
    case Some(p) =>
      FormData(
        p.name,
        p.team,
        OrElse(p.season, DefaultSeason),
        OrElse(p.kind, DefaultKind),
        InitialSizesText(p.sizes),
        p.isActive.GetOr(true),
        p.imageUrl.GetOr(""))
  }

  /** `??` keeps an explicit false; only a missing flag becomes true. */
  lemma ExplicitInactiveKept(p: Product)
    requires p.isActive == Some(false)
    ensures !InitialForm(Some(p)).isActive
  {
  }

  /** `text.split(',').map(s => s.trim())`. */
  function ParseSizes(text: string): (sizes: seq<string>)
    ensures |sizes| == CountChar(text, ',') + 1
  {
    var pieces := Split(text, ',');
    seq(|pieces|, k requires 0 <= k < |pieces| => Trim(pieces[k]))
  }

  /** Every parsed size is trimmed and holds no comma. */
  lemma ParsedSizesClean(text: string, k: nat)
    requires k < |ParseSizes(text)|
    ensures var s := ParseSizes(text)[k]; ',' !in s && Trim(s) == s
  {
    var piece := Split(text, ',')[k];
    var i := TrimIsInfix(piece);
    assert ParseSizes(text)[k] == piece[i..i + |Trim(piece)|];
    TrimIdempotent(piece);
  }

  /** A size with no comma and no white space at its ends. */
  predicate CleanSize(s: string) {
    ',' !in s && Trim(s) == s
  }

  /** After the first size, every piece of the joined text starts with the
      space of the separator. */
  lemma {:induction false} SplitJoined(sizes: seq<string>)
    requires sizes != []
    requires forall k :: 0 <= k < |sizes| ==> ',' !in sizes[k]
    ensures var pieces := Split(Join(sizes, SizesSeparator), ',');
            && |pieces| == |sizes| && pieces[0] == sizes[0]
            && forall k :: 1 <= k < |sizes| ==> pieces[k] == " " + sizes[k]
  {
    if |sizes| > 1 {
      var rest := sizes[1..];
      SplitJoined(rest);
      var joined := Join(rest, SizesSeparator);
      assert Join(sizes, SizesSeparator) == sizes[0] + [','] + ([' '] + joined);
      SplitAt(sizes[0], ',', [' '] + joined);
      var inner := Split(joined, ',');
      var outer := Split([' '] + joined, ',');
      assert outer[0] == [' '] + inner[0] && outer[1..] == inner[1..];
      assert forall k :: 1 <= k < |sizes| ==> outer[k - 1] == " " + sizes[k];
    }
  }

  /** The space the separator leaves in front of a size is trimmed away. */
  lemma TrimLeadingSpace(s: string)
    ensures Trim(" " + s) == Trim(s)
  {
    assert (" " + s)[1..] == s;
  }

  /** Joining a list of clean sizes and parsing the text gives the list back. */
  lemma JoinThenParse(sizes: seq<string>)
    requires sizes != []
    requires forall k :: 0 <= k < |sizes| ==> CleanSize(sizes[k])
    ensures ParseSizes(Join(sizes, SizesSeparator)) == sizes
  {
    var text := Join(sizes, SizesSeparator);
    SplitJoined(sizes);
    var pieces := Split(text, ',');
    var parsed := ParseSizes(text);
    assert |parsed| == |sizes|;
    forall k | 0 <= k < |sizes|
      ensures parsed[k] == sizes[k]
    {
      assert parsed[k] == Trim(pieces[k]);
      if k > 0 {
        TrimLeadingSpace(sizes[k]);
      }
    }
  }

  /** The default text is the four sizes P, M, G and GG, joined. */
  lemma DefaultSizesJoined()
    ensures DefaultSizesText == Join(["P", "M", "G", "GG"], SizesSeparator)
  {
    var sizes := ["P", "M", "G", "GG"];
    assert Join(sizes[3..], SizesSeparator) == "GG";
    assert Join(sizes[2..], SizesSeparator) == "G, GG";
    assert Join(sizes[1..], SizesSeparator) == "M, G, GG";
  }

  /** A size that neither starts nor ends with white space is left as it is
      by `Trim`. */
  lemma TrimKeeps(s: string)
    requires s != [] && !IsSpace(s[0]) && !IsSpace(s[|s| - 1])
    ensures Trim(s) == s
  {
  }

  /** The default text parses to the four sizes P, M, G and GG. */
  lemma DefaultSizes()
    ensures ParseSizes(DefaultSizesText) == ["P", "M", "G", "GG"]
  {
    var sizes := ["P", "M", "G", "GG"];
    DefaultSizesJoined();
    TrimKeeps("P");
    TrimKeeps("M");
    TrimKeeps("G");
    TrimKeeps("GG");
    assert forall k :: 0 <= k < |sizes| ==> CleanSize(sizes[k]);
    JoinThenParse(sizes);
  }

  /** Submitting an untouched form sends the product's sizes back unchanged,
      and the four default sizes when it had none. */
  lemma UntouchedSizesResubmitted(sizes: Option<seq<string>>)
    requires sizes.Some? ==> sizes.value == [] || forall k :: 0 <= k < |sizes.value| ==> CleanSize(sizes.value[k]) && sizes.value[k] != ""
    ensures ParseSizes(InitialSizesText(sizes)) == if sizes.Some? && sizes.value != [] then sizes.value else ["P", "M", "G", "GG"]
  {
    if sizes.Some? && sizes.value != [] {
      JoinEmpty(sizes.value);
      JoinThenParse(sizes.value);
    } else {
      DefaultSizes();
    }
  }

  /** An edited product is saved with PUT on its own URL, a new one with POST
      on the collection. */
  function SubmitTarget(product: Option<Product>): (t: Target)
    ensures t.httpMethod == "PUT" <==> product.Some?
    ensures t.httpMethod == "POST" <==> product.None?
    ensures StartsWith(t.url, ProductsUrl)
    ensures product.None? ==> t.url == ProductsUrl
    ensures product.Some? ==> |t.url| > |ProductsUrl| && t.url[|ProductsUrl|] == '/'
                              && t.url[|ProductsUrl| + 1..] == product.value.id
  {
    match product
    case None => Target(ProductsUrl, "POST")
    case Some(p) => Target(ProductsUrl + "/" + p.id, "PUT")
  }
}
