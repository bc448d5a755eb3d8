/** The product catalog: the slug function that builds ids, the placeholder photos, the random
    stock quantity and the literal list of products, with the facts the page relies on. */
module Catalog {
  import opened Text
  import opened Seqs
  import opened Types

  // ---------------------------------------------------------------------------------------
  // Ids

  /** `createId`: the name lower-cased, then every maximal run of white space replaced by a
      single `-`. The id has no white space, is in lower case and is never longer than the name. */
  function CreateId(name: string): (id: string)
    ensures NoSpace(id) && IsLower(id)
    ensures |id| <= |name|
  {
    LowerIsLower(name);
    DashRunsKeepsLower(Lower(name));
    DashRuns(Lower(name))
  }

  /** `replace(/\s+/g, '-')`: every maximal run of white space in `s` becomes one `-`. */
  function DashRuns(s: string): (r: string)
    ensures NoSpace(r) && |r| <= |s|
    decreases |s|
  {
    if s == [] then []
    else if IsSpace(s[0]) then "-" + DashRuns(TrimStart(s[1..]))
    else [s[0]] + DashRuns(s[1..])
  }

  lemma {:induction false} DashRunsKeepsLower(s: string)
    requires IsLower(s)
    ensures IsLower(DashRuns(s))
    decreases |s|
  {
    if s != [] {
      if IsSpace(s[0]) {
        var t := TrimStart(s[1..]);
        assert t == s[|s| - |t|..];
        assert IsLower(t);
        DashRunsKeepsLower(t);
      } else {
        assert IsLower(s[1..]);
        DashRunsKeepsLower(s[1..]);
      }
    }
  }

  /** A string without white space passes through `DashRuns` unchanged. */
  lemma {:induction false} DashRunsOfNoSpace(s: string)
    requires NoSpace(s)
    ensures DashRuns(s) == s
    decreases |s|
  {
    if s != [] {
      DashRunsOfNoSpace(s[1..]);
    }
  }

  /** A word free of white space is copied ahead of whatever `DashRuns` makes of the rest. */
  lemma {:induction false} DashRunsAfterWord(w: string, t: string)
    requires NoSpace(w)
    ensures DashRuns(w + t) == w + DashRuns(t)
    decreases |w|
  {
    if w != [] {
      assert (w + t)[1..] == w[1..] + t;
      DashRunsAfterWord(w[1..], t);
    } else {
      assert w + t == t;
    }
  }

  /** `TrimStart` removes a block of white space up to the first character that is not. */
  lemma {:induction false} TrimStartSkips(sp: string, rest: string)
    requires AllSpace(sp)
    requires rest == [] || !IsSpace(rest[0])
    ensures TrimStart(sp + rest) == rest
    decreases |sp|
  {
    if sp != [] {
      assert (sp + rest)[1..] == sp[1..] + rest;
      TrimStartSkips(sp[1..], rest);
    } else {
      assert sp + rest == rest;
    }
  }

  /** A string without white space gets plain lower-casing from `createId`. */
  lemma CreateIdOfNoSpace(s: string)
    requires NoSpace(s)
    ensures CreateId(s) == Lower(s)
  {
    LowerKeepsSpace(s);
    DashRunsOfNoSpace(Lower(s));
  }

  /** One maximal run of white space, however long, becomes exactly one `-`, the word before it
      is lower-cased, and the rest of the string is treated the same way. */
  lemma CreateIdRun(word: string, sp: string, rest: string)
    requires NoSpace(word)
    requires sp != [] && AllSpace(sp)
    requires rest == [] || !IsSpace(rest[0])
    ensures CreateId(word + sp + rest) == Lower(word) + "-" + CreateId(rest)
  {
    var lw, lr := Lower(word), Lower(rest);
    LowerKeepsSpace(word);
    LowerKeepsSpace(rest);
    assert Lower(sp) == sp;
    LowerAppend(word + sp, rest);
    LowerAppend(word, sp);
    assert Lower(word + sp + rest) == lw + (sp + lr);
    DashRunsAfterWord(lw, sp + lr);
    DashRunsOfRun(sp, lr);
  }

  /** A leading run of white space becomes one `-`. */
  lemma DashRunsOfRun(sp: string, t: string)
    requires sp != [] && AllSpace(sp)
    requires t == [] || !IsSpace(t[0])
    ensures DashRuns(sp + t) == "-" + DashRuns(t)
  {
    assert (sp + t)[0] == sp[0];
    assert (sp + t)[1..] == sp[1..] + t;
    TrimStartSkips(sp[1..], t);
  }

  /** `createId` is idempotent: an id is its own id. */
  lemma CreateIdIdempotent(s: string)
    ensures CreateId(CreateId(s)) == CreateId(s)
  {
    var id := CreateId(s);
    CreateIdOfNoSpace(id);
    LowerOfLower(id);
  }

  /** The words of `ws` with `sep` between neighbours. */
  function Joined(ws: seq<string>, sep: string): string {
    if |ws| == 0 then []
    else if |ws| == 1 then ws[0]
    else ws[0] + sep + Joined(ws[1..], sep)
  }

  /** The id of space-separated words is the lower-cased words joined by `-`. */
  lemma {:induction false} CreateIdOfWords(ws: seq<string>)
    requires forall i :: 0 <= i < |ws| ==> ws[i] != [] && NoSpace(ws[i])
    ensures CreateId(Joined(ws, " ")) == Lower(Joined(ws, "-"))
  {
    if |ws| == 1 {
      CreateIdOfNoSpace(ws[0]);
    } else if |ws| > 1 {
      var rest := Joined(ws[1..], " ");
      CreateIdOfWords(ws[1..]);
      assert rest == ws[1] || rest == ws[1] + " " + Joined(ws[2..], " ");
      assert rest[0] == ws[1][0];
      CreateIdRun(ws[0], " ", rest);
      LowerAppend(ws[0] + "-", Joined(ws[1..], "-"));
      LowerAppend(ws[0], "-");
    }
  }

  /** No two white-space characters are adjacent in `s`. */
  predicate SingleSpaced(s: string) {
    forall i :: 0 <= i < |s| - 1 ==> !(IsSpace(s[i]) && IsSpace(s[i + 1]))
  }

  /** `s` with each white-space character replaced by `-` and each letter lower-cased, character
      for character. */
  function Slug(s: string): string {
    seq(|s|, i requires 0 <= i < |s| => if IsSpace(s[i]) then '-' else LowerChar(s[i]))
  }

  /** `t` with each white-space character replaced by `-`. */
  function Dashed(t: string): string {
    seq(|t|, i requires 0 <= i < |t| => if IsSpace(t[i]) then '-' else t[i])
  }

  lemma DashedCons(t: string)
    requires t != []
    ensures Dashed(t) == [if IsSpace(t[0]) then '-' else t[0]] + Dashed(t[1..])
  {
    var d, d' := Dashed(t), Dashed(t[1..]);
    assert forall i :: 1 <= i < |t| ==> d[i] == d'[i - 1];
  }

  lemma {:induction false} DashRunsOfSingleSpaced(t: string)
    requires SingleSpaced(t)
    ensures DashRuns(t) == Dashed(t)
    decreases |t|
  {
    if t != [] {
      var rest := t[1..];
      assert SingleSpaced(rest) by {
        assert forall i :: 0 <= i < |rest| ==> rest[i] == t[i + 1];
      }
      DashedCons(t);
      DashRunsOfSingleSpaced(rest);
      if IsSpace(t[0]) {
        assert rest == [] || !IsSpace(rest[0]);
        assert TrimStart(rest) == rest;
      }
    }
  }

  /** Where white space comes one character at a time, `createId` works character by character:
      it keeps the length and maps each character on its own. */
  lemma CreateIdOfSingleSpaced(s: string)
    requires SingleSpaced(s)
    ensures CreateId(s) == Slug(s)
  {
    LowerKeepsSpace(s);
    DashRunsOfSingleSpaced(Lower(s));
  }

  lemma IdOf(source: string, id: string)
    requires SingleSpaced(source) && Slug(source) == id
    ensures CreateId(source) == id
  {
    CreateIdOfSingleSpaced(source);
  }

  // ---------------------------------------------------------------------------------------
  // Photos and quantities

  /** The keys of `realPhotos`, the models that have a photo of their own. */
  datatype RealPhoto = I17pm | I17 | I16pm | I16p | I16plus | I16 | I15 | I14 | I13 | R13c | R14c | Rn14 | Px7 | Px7p

  /** `realPhotos`: the photo of each of those models. None is missing. */
  function PhotoUrl(key: RealPhoto): (url: string)
    ensures |url| > 0
  {
    "https://" + PhotoAddress(key)
  }

  /** The address of each photo of `realPhotos`, after its `https://`. */
  function PhotoAddress(key: RealPhoto): string {
    match key
    case I17pm => "lh3.googleusercontent.com/d/1MhWz_I6HiIuF9hOO06u3nctx_fdAGJYK"
    case I17 => "lh3.googleusercontent.com/d/1ESnvm-3_nl1FD4I7jfGzhrNeOBVbqIZ1"
    case I16pm => "lh3.googleusercontent.com/d/1yDHKkTUWjZh7vQ2bC-f0XjO7pYzF4CMa"
    case I16p => "lh3.googleusercontent.com/d/1yDHKkTUWjZh7vQ2bC-f0XjO7pYzF4CMa"
    case I16plus => "lh3.googleusercontent.com/d/1UEwdqE797C-VDBBfUYHAFGzdF0q72DWj"
    case I16 => "lh3.googleusercontent.com/d/10CLPd_wmI55yeJd3fflZTL01uxUjI1x-"
    case I15 => "images.unsplash.com/photo-1695048133142-1a20484d2569?auto=format&fit=crop&q=80&w=800"
    case I14 => "lh3.googleusercontent.com/d/1wWs_YBvrVoKSRk_BKJUf8lD7Ne75i6G7"
    case I13 => "lh3.googleusercontent.com/d/1uyNK_98zQNJNGVJmxB5sWTV03zxEdYS9"
    case R13c => "lh3.googleusercontent.com/d/13XZ9pMHPzok82dxquFS4LO6BMP32eQTd"
    case R14c => "lh3.googleusercontent.com/d/1votM_Ai_p2lz5T2ofGfX-QUoWVEdiaKU"
    case Rn14 => "lh3.googleusercontent.com/d/1KZsWLDQ8aWhYWfMWzfRHt-1t2lu8mSON"
    case Px7 => "lh3.googleusercontent.com/d/10gyO3ZHtCaozc_yEPxdl4T7DMoeWX3sJ"
    case Px7p => "lh3.googleusercontent.com/d/1kNJdx3jGCSVKqU0YR2IhsVMPV3kvr8VA"
  }


  const PlaceholderFront := "https://images.unsplash.com/photo-1598327105666-5b89351aff97?auto=format&fit=crop&q=80&w=800&sig="
  const PlaceholderSide := "https://images.unsplash.com/photo-1511707171634-5f897ff02aa9?auto=format&fit=crop&q=80&w=800&sig="
  const PlaceholderBack := "https://images.unsplash.com/photo-1610945265064-0e34e5519bbf?auto=format&fit=crop&q=80&w=800&sig="

  /** `getRetailPlaceholder`: stock photos for a product without its own, told apart per product
      and per angle by the `sig` parameter: the slug followed by `f`, `s` or `b`. The three URLs
      are present and pairwise distinct. */
  function RetailPlaceholder(slug: string): (r: Images)
    ensures r.Has(Front) && r.Has(Side) && r.Has(Back)
    ensures r.front != r.side && r.side != r.back && r.front != r.back
    ensures r.front[|r.front| - 1] == 'f' && r.side[|r.side| - 1] == 's' && r.back[|r.back| - 1] == 'b'
  {
    Images(SigUrl(PlaceholderFront, slug, 'f'), SigUrl(PlaceholderSide, slug, 's'),
           SigUrl(PlaceholderBack, slug, 'b'))
  }

  /** Each placeholder URL ends in its `sig` value: the slug followed by `f`, `s` or `b`. */
  lemma RetailPlaceholderSig(slug: string)
    ensures var r := RetailPlaceholder(slug);
      && r.front[|r.front| - |slug| - 1..] == slug + "f"
      && r.side[|r.side| - |slug| - 1..] == slug + "s"
      && r.back[|r.back| - |slug| - 1..] == slug + "b"
  {
  }

  /** `${base}${slug}${angle}`: the slug sits right after `base`, and the URL ends in the slug
      followed by the angle letter. */
  function SigUrl(base: string, slug: string, angle: char): (u: string)
    ensures |u| == |base| + |slug| + 1
    ensures u[|base|..|base| + |slug|] == slug
    ensures u[|u| - |slug| - 1..] == slug + [angle]
    ensures u[|u| - 1] == angle
  {
    var u := base + slug + [angle];
    assert u == base + (slug + [angle]);
    u
  }

  /** Different slugs give different placeholder photos. */
  lemma RetailPlaceholderInjective(a: string, b: string)
    requires RetailPlaceholder(a) == RetailPlaceholder(b)
    ensures a == b
  {
    var fa, fb := RetailPlaceholder(a).front, RetailPlaceholder(b).front;
    assert |a| == |b|;
    assert a == fa[|PlaceholderFront|..|PlaceholderFront| + |a|] == fb[|PlaceholderFront|..|PlaceholderFront| + |b|] == b;
  }

  /** A value `Math.random()` may return: a number in [0, 1). */
  type Roll = r: real | 0.0 <= r < 1.0

  /** `getRandomQty`: `Math.floor(roll * 5) + 1`, where `roll` is what `Math.random()` returned. */
  function RandomQty(roll: Roll): (q: int)
    ensures 1 <= q <= 5
  {
    (roll * 5.0).Floor + 1
  }

  /** Every quantity from 1 to 5 can come out of `getRandomQty`. */
  lemma RandomQtyReaches(q: int)
    requires 1 <= q <= 5
    ensures RandomQty((q - 1) as real / 5.0) == q
  {
    assert ((q - 1) as real / 5.0) * 5.0 == (q - 1) as real;
  }

  // ---------------------------------------------------------------------------------------
  // The catalog

  /** The part of one entry of `products` that the page's logic reads: the string `createId` is
      applied to, the name, the category, the two prices, the photos and the stock label. */
  datatype Listing = Listing(idSource: string, name: string, category: Category, basePrice: real,
                             finalPrice: real, gallery: Gallery, stockStatus: StockStatus)

  /** The display text of one entry: its colour names, spec labels and description. */
  datatype Blurb = Blurb(colors: seq<string>, specs: seq<string>, description: string)

  /** The product record one entry of `products` evaluates to, given its `Math.random()` roll. */
  function Entry(l: Listing, b: Blurb, roll: Roll): (p: Product)
    ensures p.name == l.name && p.category == l.category
    ensures NoSpace(p.id)
    ensures HasAllPhotos(p.images)
    ensures 1 <= p.availableQuantity <= 5
  {
    Product(CreateId(l.idSource), l.name, l.category, l.basePrice, l.finalPrice, b.colors,
            b.specs, b.description, GalleryImages(l.gallery), l.stockStatus,
            RandomQty(roll))
  }

  /** The i-th listing with the i-th blurb and the i-th roll, for every i both lists have. */
  function Build(ls: seq<Listing>, bs: seq<Blurb>, roll: int -> Roll): (ps: seq<Product>)
    ensures |ps| == if |ls| <= |bs| then |ls| else |bs|
    ensures forall i :: 0 <= i < |ps| ==> ps[i] == Entry(ls[i], bs[i], roll(i))
  {
    seq(if |ls| <= |bs| then |ls| else |bs|,
        i requires 0 <= i < |ls| && i < |bs| => Entry(ls[i], bs[i], roll(i)))
  }

  /** Where the photos of an entry come from: one real photo for all three angles, or the
      placeholders of `getRetailPlaceholder` for a slug. */
  datatype Gallery = Real(photo: RealPhoto) | Placeholder(slug: string)

  /** The `images` object of an entry: all three photos are present. */
  function GalleryImages(g: Gallery): (r: Images)
    ensures HasAllPhotos(r)
  {
    match g
    case Real(key) =>
      var url := PhotoUrl(key);
      Images(url, url, url)
    case Placeholder(slug) => RetailPlaceholder(slug)
  }

  /** The entries of `products`, in order, without their text. */
  const Listings: seq<Listing> :=
    [
      // iPhones
      Listing("iPhone 17 Pro Max 256GB", "iPhone 17 Pro Max 256GB", Iphone, 9000.0, 9500.0,
        Real(I17pm), LastUnits),
      Listing("iPhone 17 Pro Max 512GB", "iPhone 17 Pro Max 512GB", Iphone, 10400.0, 10900.0,
        Real(I17pm), InStock),
      Listing("iPhone 17 Pro Max 1TB", "iPhone 17 Pro Max 1TB", Iphone, 11600.0, 12100.0,
        Real(I17pm), LastUnits),
      Listing("iPhone 17 Pro 256GB", "iPhone 17 Pro 256GB", Iphone, 8350.0, 8850.0,
        Real(I17pm), InStock),
      Listing("iPhone 17 256GB", "iPhone 17 256GB", Iphone, 6100.0, 6600.0,
        Real(I17), InStock),
      Listing("iPhone 16 Pro Max 512GB", "iPhone 16 Pro Max 512GB", Iphone, 8500.0, 9000.0,
        Real(I16pm), InStock),
      Listing("iPhone 16 Pro 128GB", "iPhone 16 Pro 128GB", Iphone, 6100.0, 6600.0,
        Real(I16p), InStock),
      Listing("iPhone 16 Plus 128GB", "iPhone 16 Plus 128GB", Iphone, 5100.0, 5600.0,
        Real(I16plus), InStock),
      Listing("iPhone 16 128GB", "iPhone 16 128GB", Iphone, 4700.0, 5200.0,
        Real(I16), InStock),
      Listing("iPhone 15 128GB", "iPhone 15 128GB", Iphone, 4000.0, 4500.0,
        Real(I15), LastUnits),
      Listing("iPhone 14 128GB", "iPhone 14 128GB", Iphone, 3500.0, 4000.0,
        Real(I14), InStock),
      Listing("iPhone 13 128GB", "iPhone 13 128GB", Iphone, 3150.0, 3650.0,
        Real(I13), InStock),
      // Xiaomi and Realme
      Listing("Redmi A5 3/64GB", "Redmi A5 3/64GB", Xiaomi, 470.0, 970.0,
        Placeholder("ra5-364"), InStock),
      Listing("Redmi A5 4/128GB", "Redmi A5 4/128GB", Xiaomi, 560.0, 1060.0,
        Placeholder("ra5-4128"), InStock),
      Listing("Redmi 13C 8/256GB", "Redmi 13C 8/256GB", Xiaomi, 600.0, 1100.0,
        Real(R13c), InStock),
      Listing("Redmi 14C 8/256GB", "Redmi 14C 8/256GB", Xiaomi, 650.0, 1150.0,
        Real(R14c), InStock),
      Listing("Redmi Note 14 8/256GB", "Redmi Note 14 8/256GB (4G)", Xiaomi, 1070.0, 1570.0,
        Real(Rn14), InStock),
      Listing("Poco X7 Pro 12/512GB", "Poco X7 Pro 12/512GB 5G", Xiaomi, 2160.0, 2660.0,
        Real(Px7p), LastUnits),
      Listing("Poco X7 12/512GB", "Poco X7 12/512GB 5G", Xiaomi, 1720.0, 2220.0,
        Real(Px7), InStock),
      Listing("Poco C85 8/256GB", "Poco C85 8/256GB", Xiaomi, 795.0, 1295.0,
        Placeholder("pc85"), InStock),
      Listing("Realme Note 60X 4/128GB", "Realme Note 60X 4/128GB (ANATEL)", Xiaomi, 550.0, 1050.0,
        Placeholder("rn60x"), InStock),
      Listing("Realme Note 60X 3/64GB", "Realme Note 60X 3/64GB (ANATEL)", Xiaomi, 450.0, 950.0,
        Placeholder("rn60x364"), InStock)
    ]

  /** The text of the entries of `products`, in the same order as `Listings`. */
  const Blurbs: seq<Blurb> := [
      Blurb(["Laranja", "Azul", "Silver"],
        ["256GB", "Chip A19 Pro", "Titânio Aeroespacial", "Câmera Tripla 48MP"],
        "A revolução tecnológica no seu bolso. O design exclusivo em titânio laranja é a escolha dos líderes."),
      Blurb(["Laranja"],
        ["512GB", "Lente Periscópica", "Bateria Pro+", "IA Nativa"],
        "Espaço ilimitado para sua criatividade. Capture em ProRES 8K sem se preocupar com memória."),
      Blurb(["Laranja"],
        ["1 Terabyte", "Máxima Performance", "Capa Couro Inclusa"],
        "O smartphone mais potente já criado. 1TB de armazenamento para quem exige o impossível."),
      Blurb(["Laranja", "Azul", "Silver"],
        ["256GB", "Tela ProMotion 120Hz", "Design Ergonômico"],
        "Poder Pro em um corpo compacto e elegante. O acabamento em titânio garante durabilidade extrema."),
      Blurb(["Azul", "Verde", "Lilás", "Preto", "Branco"],
        ["256GB", "Cores Vibrantes", "Dynamic Island 2.0"],
        "Estilo e performance em harmonia. O iPhone 17 é a escolha inteligente para quem quer o novo."),
      Blurb(["Preto"],
        ["512GB", "Apple Intelligence", "Titânio Negro"],
        "A geração que mudou a história com IA nativa. Potência absoluta em cada pixel."),
      Blurb(["Branco"],
        ["128GB", "Foco Automático Laser", "Chip A18 Pro"],
        "A fotografia profissional elevada ao máximo. O iPhone 16 Pro é a ferramenta do artista moderno."),
      Blurb(["Branco", "Preto"],
        ["128GB", "Tela Gigante 6.7\"", "Bateria Imbatível"],
        "Imersão total para seus vídeos e jogos. A maior tela pelo melhor custo-benefício."),
      Blurb(["Rosé", "Preto", "Verde", "Branco"],
        ["128GB", "Botão de Ação", "Cores Mate"],
        "Inovação acessível. O ponto de entrada para a tecnologia mais moderna da Apple."),
      Blurb(["Rosé"],
        ["128GB", "USB-C", "Dynamic Island"],
        "Modernidade e praticidade com conexão universal USB-C. Um campeão de vendas na WB."),
      Blurb(["Branco", "Preto"],
        ["128GB", "Chip A15 Bionic", "Super Retina XDR", "Cinematográfico 4K"],
        "Desempenho duradouro e fotos incríveis. O iPhone 14 é ideal para quem busca tecnologia e estilo."),
      Blurb(["Branco", "Azul", "Preto"],
        ["128GB", "Chip A15 Bionic", "Excelente Câmera"],
        "O clássico que nunca sai de moda. O melhor custo-benefício para entrar no mundo Apple."),
      Blurb(["Gold", "Azul", "Preto"],
        ["3/64GB", "Bateria 5000mAh", "Tela 6.5\""],
        "Simplicidade e autonomia. O celular que te acompanha o dia todo sem carregar."),
      Blurb(["Preto", "Azul"],
        ["4/128GB", "Design Slim", "Câmera IA"],
        "Mais espaço para seu dia a dia. Desempenho confiável com selo de originalidade Xiaomi."),
      Blurb(["Preto", "Azul", "Verde"],
        ["8/256GB", "Tela 90Hz", "NFC"],
        "Muita memória por um preço que você não vai acreditar. Fluidez e espaço de sobra."),
      Blurb(["Preto", "Roxo", "Azul", "Verde"],
        ["8/256GB", "RAM Expansível", "Hardware Premium"],
        "A evolução da linha Redmi. Estilo refinado e hardware potente para multitarefa."),
      Blurb(["Verde", "Azul", "Preto"],
        ["8/256GB", "Tela AMOLED", "Câmera 108MP"],
        "Qualidade fotográfica de ponta. O Redmi Note 14 redefine o que é um smartphone intermediário premium."),
      Blurb(["Preto", "Verde"],
        ["12/512GB", "Snapdragon Gamer", "Tela AMOLED 120Hz", "5G Turbo"],
        "Performance bruta para gamers. Sinta a velocidade do 5G com o hardware mais potente da POCO."),
      Blurb(["Preto", "Verde", "Silver"],
        ["12/512GB", "Processador Dimensity", "Carga de 67W"],
        "Equilíbrio e velocidade. O Poco X7 é o dispositivo ideal para quem busca performance sem limites."),
      Blurb(["Preto", "Roxo", "Verde"],
        ["8/256GB", "Câmera Dupla IA", "Bateria Gigante"],
        "O equilíbrio perfeito entre preço e poder. Grande tela e bateria infinita para seu lazer."),
      Blurb(["Preto", "Verde"],
        ["4/128GB", "Selo ANATEL", "1 Ano de Garantia"],
        "Segurança absoluta para sua compra. Homologado pela Anatel com garantia oficial Realme."),
      Blurb(["Preto", "Verde"],
        ["3/64GB", "Certificado Anatel", "Resistente"],
        "O melhor preço para um aparelho com garantia nacional. Confiabilidade e economia.")
    ]

  /** `products`, where `roll(i)` is what `Math.random()` returned for the i-th entry when the
      page loaded. */
  function Products(roll: int -> Roll): seq<Product> {
    Build(Listings, Blurbs, roll)
  }

  // ---------------------------------------------------------------------------------------
  // Facts about the catalog

  /** The ids of `ps`, in order. */
  function Ids(ps: seq<Product>): (ids: seq<string>)
    ensures |ids| == |ps| && forall i :: 0 <= i < |ps| ==> ids[i] == ps[i].id
  {
    seq(|ps|, i requires 0 <= i < |ps| => ps[i].id)
  }

  function IdSources(ls: seq<Listing>): (r: seq<string>)
    ensures |r| == |ls| && forall i :: 0 <= i < |ls| ==> r[i] == ls[i].idSource
  {
    seq(|ls|, i requires 0 <= i < |ls| => ls[i].idSource)
  }

  /** `createId` applied to each string of `ss`. */
  function CreateIds(ss: seq<string>): (r: seq<string>)
    ensures |r| == |ss| && forall i :: 0 <= i < |ss| ==> r[i] == CreateId(ss[i])
  {
    seq(|ss|, i requires 0 <= i < |ss| => CreateId(ss[i]))
  }

  /** The ids of the catalog, in catalog order. */
  const CatalogIdList: seq<string> := [
    "iphone-17-pro-max-256gb",
    "iphone-17-pro-max-512gb",
    "iphone-17-pro-max-1tb",
    "iphone-17-pro-256gb",
    "iphone-17-256gb",
    "iphone-16-pro-max-512gb",
    "iphone-16-pro-128gb",
    "iphone-16-plus-128gb",
    "iphone-16-128gb",
    "iphone-15-128gb",
    "iphone-14-128gb",
    "iphone-13-128gb",
    "redmi-a5-3/64gb",
    "redmi-a5-4/128gb",
    "redmi-13c-8/256gb",
    "redmi-14c-8/256gb",
    "redmi-note-14-8/256gb",
    "poco-x7-pro-12/512gb",
    "poco-x7-12/512gb",
    "poco-c85-8/256gb",
    "realme-note-60x-4/128gb",
    "realme-note-60x-3/64gb"]

  // The value of each `createId` call in the catalog: its argument has no two neighbouring
  // white-space characters, so its id is its slug, worked out character by character.

  lemma SpacedIPhone17ProMax256GB()
    ensures SingleSpaced("iPhone 17 Pro Max 256GB")
  {
  }

  lemma SlugIPhone17ProMax256GB(s: string)
    requires s == "iPhone 17 Pro Max 256GB"
    ensures Slug(s) == "iphone-17-pro-max-256gb"
  {
  }

  lemma IdIPhone17ProMax256GB()
    ensures CreateId("iPhone 17 Pro Max 256GB") == "iphone-17-pro-max-256gb"
  {
    SpacedIPhone17ProMax256GB();
    SlugIPhone17ProMax256GB("iPhone 17 Pro Max 256GB");
    IdOf("iPhone 17 Pro Max 256GB", "iphone-17-pro-max-256gb");
  }

  lemma SpacedIPhone17ProMax512GB()
    ensures SingleSpaced("iPhone 17 Pro Max 512GB")
  {
  }

  lemma SlugIPhone17ProMax512GB(s: string)
    requires s == "iPhone 17 Pro Max 512GB"
    ensures Slug(s) == "iphone-17-pro-max-512gb"
  {
  }

  lemma IdIPhone17ProMax512GB()
    ensures CreateId("iPhone 17 Pro Max 512GB") == "iphone-17-pro-max-512gb"
  {
    SpacedIPhone17ProMax512GB();
    SlugIPhone17ProMax512GB("iPhone 17 Pro Max 512GB");
    IdOf("iPhone 17 Pro Max 512GB", "iphone-17-pro-max-512gb");
  }

  lemma SpacedIPhone17ProMax1TB()
    ensures SingleSpaced("iPhone 17 Pro Max 1TB")
  {
  }

  lemma SlugIPhone17ProMax1TB(s: string)
    requires s == "iPhone 17 Pro Max 1TB"
    ensures Slug(s) == "iphone-17-pro-max-1tb"
  {
  }

  lemma IdIPhone17ProMax1TB()
    ensures CreateId("iPhone 17 Pro Max 1TB") == "iphone-17-pro-max-1tb"
  {
    SpacedIPhone17ProMax1TB();
    SlugIPhone17ProMax1TB("iPhone 17 Pro Max 1TB");
    IdOf("iPhone 17 Pro Max 1TB", "iphone-17-pro-max-1tb");
  }

  lemma SpacedIPhone17Pro256GB()
    ensures SingleSpaced("iPhone 17 Pro 256GB")
  {
  }

  lemma SlugIPhone17Pro256GB(s: string)
    requires s == "iPhone 17 Pro 256GB"
    ensures Slug(s) == "iphone-17-pro-256gb"
  {
  }

  lemma IdIPhone17Pro256GB()
    ensures CreateId("iPhone 17 Pro 256GB") == "iphone-17-pro-256gb"
  {
    SpacedIPhone17Pro256GB();
    SlugIPhone17Pro256GB("iPhone 17 Pro 256GB");
    IdOf("iPhone 17 Pro 256GB", "iphone-17-pro-256gb");
  }

  lemma SpacedIPhone17256GB()
    ensures SingleSpaced("iPhone 17 256GB")
  {
  }

  lemma SlugIPhone17256GB(s: string)
    requires s == "iPhone 17 256GB"
    ensures Slug(s) == "iphone-17-256gb"
  {
  }

  lemma IdIPhone17256GB()
    ensures CreateId("iPhone 17 256GB") == "iphone-17-256gb"
  {
    SpacedIPhone17256GB();
    SlugIPhone17256GB("iPhone 17 256GB");
    IdOf("iPhone 17 256GB", "iphone-17-256gb");
  }

  lemma SpacedIPhone16ProMax512GB()
    ensures SingleSpaced("iPhone 16 Pro Max 512GB")
  {
  }

  lemma SlugIPhone16ProMax512GB(s: string)
    requires s == "iPhone 16 Pro Max 512GB"
    ensures Slug(s) == "iphone-16-pro-max-512gb"
  {
  }

  lemma IdIPhone16ProMax512GB()
    ensures CreateId("iPhone 16 Pro Max 512GB") == "iphone-16-pro-max-512gb"
  {
    SpacedIPhone16ProMax512GB();
    SlugIPhone16ProMax512GB("iPhone 16 Pro Max 512GB");
    IdOf("iPhone 16 Pro Max 512GB", "iphone-16-pro-max-512gb");
  }

  lemma SpacedIPhone16Pro128GB()
    ensures SingleSpaced("iPhone 16 Pro 128GB")
  {
  }

  lemma SlugIPhone16Pro128GB(s: string)
    requires s == "iPhone 16 Pro 128GB"
    ensures Slug(s) == "iphone-16-pro-128gb"
  {
  }

  lemma IdIPhone16Pro128GB()
    ensures CreateId("iPhone 16 Pro 128GB") == "iphone-16-pro-128gb"
  {
    SpacedIPhone16Pro128GB();
    SlugIPhone16Pro128GB("iPhone 16 Pro 128GB");
    IdOf("iPhone 16 Pro 128GB", "iphone-16-pro-128gb");
  }

  lemma SpacedIPhone16Plus128GB()
    ensures SingleSpaced("iPhone 16 Plus 128GB")
  {
  }

  lemma SlugIPhone16Plus128GB(s: string)
    requires s == "iPhone 16 Plus 128GB"
    ensures Slug(s) == "iphone-16-plus-128gb"
  {
  }

  lemma IdIPhone16Plus128GB()
    ensures CreateId("iPhone 16 Plus 128GB") == "iphone-16-plus-128gb"
  {
    SpacedIPhone16Plus128GB();
    SlugIPhone16Plus128GB("iPhone 16 Plus 128GB");
    IdOf("iPhone 16 Plus 128GB", "iphone-16-plus-128gb");
  }

  lemma SpacedIPhone16128GB()
    ensures SingleSpaced("iPhone 16 128GB")
  {
  }

  lemma SlugIPhone16128GB(s: string)
    requires s == "iPhone 16 128GB"
    ensures Slug(s) == "iphone-16-128gb"
  {
  }

  lemma IdIPhone16128GB()
    ensures CreateId("iPhone 16 128GB") == "iphone-16-128gb"
  {
    SpacedIPhone16128GB();
    SlugIPhone16128GB("iPhone 16 128GB");
    IdOf("iPhone 16 128GB", "iphone-16-128gb");
  }

  lemma SpacedIPhone15128GB()
    ensures SingleSpaced("iPhone 15 128GB")
  {
  }

  lemma SlugIPhone15128GB(s: string)
    requires s == "iPhone 15 128GB"
    ensures Slug(s) == "iphone-15-128gb"
  {
  }

  lemma IdIPhone15128GB()
    ensures CreateId("iPhone 15 128GB") == "iphone-15-128gb"
  {
    SpacedIPhone15128GB();
    SlugIPhone15128GB("iPhone 15 128GB");
    IdOf("iPhone 15 128GB", "iphone-15-128gb");
  }

  lemma SpacedIPhone14128GB()
    ensures SingleSpaced("iPhone 14 128GB")
  {
  }

  lemma SlugIPhone14128GB(s: string)
    requires s == "iPhone 14 128GB"
    ensures Slug(s) == "iphone-14-128gb"
  {
  }

  lemma IdIPhone14128GB()
    ensures CreateId("iPhone 14 128GB") == "iphone-14-128gb"
  {
    SpacedIPhone14128GB();
    SlugIPhone14128GB("iPhone 14 128GB");
    IdOf("iPhone 14 128GB", "iphone-14-128gb");
  }

  lemma SpacedIPhone13128GB()
    ensures SingleSpaced("iPhone 13 128GB")
  {
  }

  lemma SlugIPhone13128GB(s: string)
    requires s == "iPhone 13 128GB"
    ensures Slug(s) == "iphone-13-128gb"
  {
  }

  lemma IdIPhone13128GB()
    ensures CreateId("iPhone 13 128GB") == "iphone-13-128gb"
  {
    SpacedIPhone13128GB();
    SlugIPhone13128GB("iPhone 13 128GB");
    IdOf("iPhone 13 128GB", "iphone-13-128gb");
  }

  lemma SpacedRedmiA5364GB()
    ensures SingleSpaced("Redmi A5 3/64GB")
  {
  }

  lemma SlugRedmiA5364GB(s: string)
    requires s == "Redmi A5 3/64GB"
    ensures Slug(s) == "redmi-a5-3/64gb"
  {
  }

  lemma IdRedmiA5364GB()
    ensures CreateId("Redmi A5 3/64GB") == "redmi-a5-3/64gb"
  {
    SpacedRedmiA5364GB();
    SlugRedmiA5364GB("Redmi A5 3/64GB");
    IdOf("Redmi A5 3/64GB", "redmi-a5-3/64gb");
  }

  lemma SpacedRedmiA54128GB()
    ensures SingleSpaced("Redmi A5 4/128GB")
  {
  }

  lemma SlugRedmiA54128GB(s: string)
    requires s == "Redmi A5 4/128GB"
    ensures Slug(s) == "redmi-a5-4/128gb"
  {
  }

  lemma IdRedmiA54128GB()
    ensures CreateId("Redmi A5 4/128GB") == "redmi-a5-4/128gb"
  {
    SpacedRedmiA54128GB();
    SlugRedmiA54128GB("Redmi A5 4/128GB");
    IdOf("Redmi A5 4/128GB", "redmi-a5-4/128gb");
  }

  lemma SpacedRedmi13C8256GB()
    ensures SingleSpaced("Redmi 13C 8/256GB")
  {
  }

  lemma SlugRedmi13C8256GB(s: string)
    requires s == "Redmi 13C 8/256GB"
    ensures Slug(s) == "redmi-13c-8/256gb"
  {
  }

  lemma IdRedmi13C8256GB()
    ensures CreateId("Redmi 13C 8/256GB") == "redmi-13c-8/256gb"
  {
    SpacedRedmi13C8256GB();
    SlugRedmi13C8256GB("Redmi 13C 8/256GB");
    IdOf("Redmi 13C 8/256GB", "redmi-13c-8/256gb");
  }

  lemma SpacedRedmi14C8256GB()
    ensures SingleSpaced("Redmi 14C 8/256GB")
  {
  }

  lemma SlugRedmi14C8256GB(s: string)
    requires s == "Redmi 14C 8/256GB"
    ensures Slug(s) == "redmi-14c-8/256gb"
  {
  }

  lemma IdRedmi14C8256GB()
    ensures CreateId("Redmi 14C 8/256GB") == "redmi-14c-8/256gb"
  {
    SpacedRedmi14C8256GB();
    SlugRedmi14C8256GB("Redmi 14C 8/256GB");
    IdOf("Redmi 14C 8/256GB", "redmi-14c-8/256gb");
  }

  lemma SpacedRedmiNote148256GB()
    ensures SingleSpaced("Redmi Note 14 8/256GB")
  {
  }

  lemma SlugRedmiNote148256GB(s: string)
    requires s == "Redmi Note 14 8/256GB"
    ensures Slug(s) == "redmi-note-14-8/256gb"
  {
  }

  lemma IdRedmiNote148256GB()
    ensures CreateId("Redmi Note 14 8/256GB") == "redmi-note-14-8/256gb"
  {
    SpacedRedmiNote148256GB();
    SlugRedmiNote148256GB("Redmi Note 14 8/256GB");
    IdOf("Redmi Note 14 8/256GB", "redmi-note-14-8/256gb");
  }

  lemma SpacedPocoX7Pro12512GB()
    ensures SingleSpaced("Poco X7 Pro 12/512GB")
  {
  }

  lemma SlugPocoX7Pro12512GB(s: string)
    requires s == "Poco X7 Pro 12/512GB"
    ensures Slug(s) == "poco-x7-pro-12/512gb"
  {
  }

  lemma IdPocoX7Pro12512GB()
    ensures CreateId("Poco X7 Pro 12/512GB") == "poco-x7-pro-12/512gb"
  {
    SpacedPocoX7Pro12512GB();
    SlugPocoX7Pro12512GB("Poco X7 Pro 12/512GB");
    IdOf("Poco X7 Pro 12/512GB", "poco-x7-pro-12/512gb");
  }

  lemma SpacedPocoX712512GB()
    ensures SingleSpaced("Poco X7 12/512GB")
  {
  }

  lemma SlugPocoX712512GB(s: string)
    requires s == "Poco X7 12/512GB"
    ensures Slug(s) == "poco-x7-12/512gb"
  {
  }

  lemma IdPocoX712512GB()
    ensures CreateId("Poco X7 12/512GB") == "poco-x7-12/512gb"
  {
    SpacedPocoX712512GB();
    SlugPocoX712512GB("Poco X7 12/512GB");
    IdOf("Poco X7 12/512GB", "poco-x7-12/512gb");
  }

  lemma SpacedPocoC858256GB()
    ensures SingleSpaced("Poco C85 8/256GB")
  {
  }

  lemma SlugPocoC858256GB(s: string)
    requires s == "Poco C85 8/256GB"
    ensures Slug(s) == "poco-c85-8/256gb"
  {
  }

  lemma IdPocoC858256GB()
    ensures CreateId("Poco C85 8/256GB") == "poco-c85-8/256gb"
  {
    SpacedPocoC858256GB();
    SlugPocoC858256GB("Poco C85 8/256GB");
    IdOf("Poco C85 8/256GB", "poco-c85-8/256gb");
  }

  lemma SpacedRealmeNote60X4128GB()
    ensures SingleSpaced("Realme Note 60X 4/128GB")
  {
  }

  lemma SlugRealmeNote60X4128GB(s: string)
    requires s == "Realme Note 60X 4/128GB"
    ensures Slug(s) == "realme-note-60x-4/128gb"
  {
  }

  lemma IdRealmeNote60X4128GB()
    ensures CreateId("Realme Note 60X 4/128GB") == "realme-note-60x-4/128gb"
  {
    SpacedRealmeNote60X4128GB();
    SlugRealmeNote60X4128GB("Realme Note 60X 4/128GB");
    IdOf("Realme Note 60X 4/128GB", "realme-note-60x-4/128gb");
  }

  lemma SpacedRealmeNote60X364GB()
    ensures SingleSpaced("Realme Note 60X 3/64GB")
  {
  }

  lemma SlugRealmeNote60X364GB(s: string)
    requires s == "Realme Note 60X 3/64GB"
    ensures Slug(s) == "realme-note-60x-3/64gb"
  {
  }

  lemma IdRealmeNote60X364GB()
    ensures CreateId("Realme Note 60X 3/64GB") == "realme-note-60x-3/64gb"
  {
    SpacedRealmeNote60X364GB();
    SlugRealmeNote60X364GB("Realme Note 60X 3/64GB");
    IdOf("Realme Note 60X 3/64GB", "realme-note-60x-3/64gb");
  }

  /** Collects the 22 ids into `CatalogIdList`. */
  lemma CreateIdsFromEach(ss: seq<string>)
    requires |ss| == 22
    requires CreateId(ss[0]) == "iphone-17-pro-max-256gb"
    requires CreateId(ss[1]) == "iphone-17-pro-max-512gb"
    requires CreateId(ss[2]) == "iphone-17-pro-max-1tb"
    requires CreateId(ss[3]) == "iphone-17-pro-256gb"
    requires CreateId(ss[4]) == "iphone-17-256gb"
    requires CreateId(ss[5]) == "iphone-16-pro-max-512gb"
    requires CreateId(ss[6]) == "iphone-16-pro-128gb"
    requires CreateId(ss[7]) == "iphone-16-plus-128gb"
    requires CreateId(ss[8]) == "iphone-16-128gb"
    requires CreateId(ss[9]) == "iphone-15-128gb"
    requires CreateId(ss[10]) == "iphone-14-128gb"
    requires CreateId(ss[11]) == "iphone-13-128gb"
    requires CreateId(ss[12]) == "redmi-a5-3/64gb"
    requires CreateId(ss[13]) == "redmi-a5-4/128gb"
    requires CreateId(ss[14]) == "redmi-13c-8/256gb"
    requires CreateId(ss[15]) == "redmi-14c-8/256gb"
    requires CreateId(ss[16]) == "redmi-note-14-8/256gb"
    requires CreateId(ss[17]) == "poco-x7-pro-12/512gb"
    requires CreateId(ss[18]) == "poco-x7-12/512gb"
    requires CreateId(ss[19]) == "poco-c85-8/256gb"
    requires CreateId(ss[20]) == "realme-note-60x-4/128gb"
    requires CreateId(ss[21]) == "realme-note-60x-3/64gb"
    ensures CreateIds(ss) == CatalogIdList
  {
  }

  /** `createId` of a list holding the catalog's id strings, in catalog order, is `CatalogIdList`. */
  lemma CreateIdsOfSources(ss: seq<string>)
    requires |ss| == 22
    requires ss[0] == "iPhone 17 Pro Max 256GB"
    requires ss[1] == "iPhone 17 Pro Max 512GB"
    requires ss[2] == "iPhone 17 Pro Max 1TB"
    requires ss[3] == "iPhone 17 Pro 256GB"
    requires ss[4] == "iPhone 17 256GB"
    requires ss[5] == "iPhone 16 Pro Max 512GB"
    requires ss[6] == "iPhone 16 Pro 128GB"
    requires ss[7] == "iPhone 16 Plus 128GB"
    requires ss[8] == "iPhone 16 128GB"
    requires ss[9] == "iPhone 15 128GB"
    requires ss[10] == "iPhone 14 128GB"
    requires ss[11] == "iPhone 13 128GB"
    requires ss[12] == "Redmi A5 3/64GB"
    requires ss[13] == "Redmi A5 4/128GB"
    requires ss[14] == "Redmi 13C 8/256GB"
    requires ss[15] == "Redmi 14C 8/256GB"
    requires ss[16] == "Redmi Note 14 8/256GB"
    requires ss[17] == "Poco X7 Pro 12/512GB"
    requires ss[18] == "Poco X7 12/512GB"
    requires ss[19] == "Poco C85 8/256GB"
    requires ss[20] == "Realme Note 60X 4/128GB"
    requires ss[21] == "Realme Note 60X 3/64GB"
    ensures CreateIds(ss) == CatalogIdList
  {
    IdIPhone17ProMax256GB();
    IdIPhone17ProMax512GB();
    IdIPhone17ProMax1TB();
    IdIPhone17Pro256GB();
    IdIPhone17256GB();
    IdIPhone16ProMax512GB();
    IdIPhone16Pro128GB();
    IdIPhone16Plus128GB();
    IdIPhone16128GB();
    IdIPhone15128GB();
    IdIPhone14128GB();
    IdIPhone13128GB();
    IdRedmiA5364GB();
    IdRedmiA54128GB();
    IdRedmi13C8256GB();
    IdRedmi14C8256GB();
    IdRedmiNote148256GB();
    IdPocoX7Pro12512GB();
    IdPocoX712512GB();
    IdPocoC858256GB();
    IdRealmeNote60X4128GB();
    IdRealmeNote60X364GB();
    CreateIdsFromEach(ss);
  }

  /** The strings `createId` is applied to, entry by entry. */
  const CatalogIdSources: seq<string> := [
      "iPhone 17 Pro Max 256GB",
      "iPhone 17 Pro Max 512GB",
      "iPhone 17 Pro Max 1TB",
      "iPhone 17 Pro 256GB",
      "iPhone 17 256GB",
      "iPhone 16 Pro Max 512GB",
      "iPhone 16 Pro 128GB",
      "iPhone 16 Plus 128GB",
      "iPhone 16 128GB",
      "iPhone 15 128GB",
      "iPhone 14 128GB",
      "iPhone 13 128GB",
      "Redmi A5 3/64GB",
      "Redmi A5 4/128GB",
      "Redmi 13C 8/256GB",
      "Redmi 14C 8/256GB",
      "Redmi Note 14 8/256GB",
      "Poco X7 Pro 12/512GB",
      "Poco X7 12/512GB",
      "Poco C85 8/256GB",
      "Realme Note 60X 4/128GB",
      "Realme Note 60X 3/64GB"]

  /** `createId` of the id strings is `CatalogIdList`. */
  lemma SourcesIds(ss: seq<string>)
    requires ss == CatalogIdSources
    ensures CreateIds(ss) == CatalogIdList
  {
    CreateIdsOfSources(ss);
  }

  /** The id strings of the entries of `products`. Five entries build their id from a string other
      than their name: the Redmi Note 14, the two Poco X7 and the two Realme Note 60X. */
  lemma ListingIdSources()
    ensures IdSources(Listings) == CatalogIdSources
    ensures forall i :: 0 <= i < |Listings| ==>
              (Listings[i].idSource != Listings[i].name <==> i in {16, 17, 18, 20, 21})
  {
  }

  lemma CatalogIdListDistinct()
    ensures forall i, j :: 0 <= i < j < |CatalogIdList| ==> CatalogIdList[i] != CatalogIdList[j]
  {
  }

  lemma ListingCount()
    ensures |Listings| == 22
  {
  }

  lemma BlurbCount()
    ensures |Blurbs| == 22
  {
  }

  /** Twelve iPhones, then ten entries in the Xiaomi tab. */
  lemma ListingTabs()
    ensures forall i :: 0 <= i < |Listings| ==> Listings[i].category == (if i < 12 then Iphone else Xiaomi)
  {
  }

  /** Every entry sells R$ 500 above its base price. */
  lemma ListingPrices()
    ensures forall i :: 0 <= i < |Listings| ==> Listings[i].finalPrice == Listings[i].basePrice + 500.0
  {
  }

  predicate HasAllPhotos(images: Images) {
    images.Has(Front) && images.Has(Side) && images.Has(Back)
  }

  /** 22 products: twelve in the iPhone tab, then ten in the Xiaomi tab. */
  predicate TabSplit(ps: seq<Product>) {
    && |ps| == 22
    && (forall i :: 0 <= i < |ps| ==> ps[i].category == (if i < 12 then Iphone else Xiaomi))
  }

  /** What the page can rely on about the catalog, whatever the rolls: 22 products, twelve
      iPhones then ten in the Xiaomi tab, the ids of `CatalogIdList` in that order, every price
      R$ 500 above its base, all three photos and a quantity in 1..5. */
  predicate CatalogShape(ps: seq<Product>) {
    && TabSplit(ps)
    && Ids(ps) == CatalogIdList
    && (forall i :: 0 <= i < |ps| ==> ps[i].finalPrice == ps[i].basePrice + 500.0)
    && (forall i :: 0 <= i < |ps| ==> HasAllPhotos(ps[i].images))
    && (forall i :: 0 <= i < |ps| ==> 1 <= ps[i].availableQuantity <= 5)
  }

  /** `Build` carries the facts about the listings over to the products. */
  lemma BuildShape(ls: seq<Listing>, bs: seq<Blurb>, roll: int -> Roll)
    requires |ls| == 22 <= |bs|
    requires IdSources(ls) == CatalogIdSources
    requires forall i :: 0 <= i < |ls| ==> ls[i].category == (if i < 12 then Iphone else Xiaomi)
    requires forall i :: 0 <= i < |ls| ==> ls[i].finalPrice == ls[i].basePrice + 500.0
    ensures CatalogShape(Build(ls, bs, roll))
  {
    SourcesIds(IdSources(ls));
    var ps := Build(ls, bs, roll);
    assert Ids(ps) == CreateIds(IdSources(ls));
  }

  lemma CatalogFacts(roll: int -> Roll)
    ensures CatalogShape(Products(roll))
  {
    ListingCount();
    BlurbCount();
    ListingIdSources();
    ListingTabs();
    ListingPrices();
    BuildShape(Listings, Blurbs, roll);
  }

  /** The catalog's ids are pairwise distinct, so they can serve as list keys. */
  lemma ShapeIdsDistinct(ps: seq<Product>)
    requires CatalogShape(ps)
    ensures DistinctBy(ps, (p: Product) => p.id)
  {
    CatalogIdListDistinct();
    assert forall i :: 0 <= i < |ps| ==> ps[i].id == CatalogIdList[i];
  }

  /** The ids of `products` are pairwise distinct, whatever the quantities drawn. */
  lemma ProductIdsDistinct(roll: int -> Roll)
    ensures DistinctBy(Products(roll), (p: Product) => p.id)
  {
    CatalogFacts(roll);
    ShapeIdsDistinct(Products(roll));
  }
}
