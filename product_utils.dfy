/** Product presentation helpers shared by the catalogue pages: the
    placeholder gradient for an animal and a category, the animal's emoji,
    label and icon, and the placeholder-image test. */
module ProductUtils {
  import opened Common

  /** The animals and categories of the gradient table. */
  datatype Animal = Perro | Gato | Otros
  datatype Category = Alimentacion | Higiene | Salud | Accesorios | Juguetes

  function AnimalName(a: Animal): string {
    match a
    case Perro => "perro"
    case Gato => "gato"
    case Otros => "otros"
  }

  function CategoryName(c: Category): string {
    match c
    case Alimentacion => "alimentacion"
    case Higiene => "higiene"
    case Salud => "salud"
    case Accesorios => "accesorios"
    case Juguetes => "juguetes"
  }

  /** The table's key for an animal name, if it has one. */
  function ParseAnimal(s: string): (r: Option<Animal>)
    ensures r.Some? ==> AnimalName(r.value) == s
  {
    if s == "perro" then Some(Perro) else if s == "gato" then Some(Gato) else if s == "otros" then Some(Otros)
    else None
  }

  function ParseCategory(s: string): (r: Option<Category>)
    ensures r.Some? ==> CategoryName(r.value) == s
  {
    if s == "alimentacion" then Some(Alimentacion) else if s == "higiene" then Some(Higiene)
    else if s == "salud" then Some(Salud) else if s == "accesorios" then Some(Accesorios)
    else if s == "juguetes" then Some(Juguetes)
    else None
  }

  /** Every key of the table is found under its own name. */
  lemma ParseNames(a: Animal, c: Category)
    ensures ParseAnimal(AnimalName(a)) == Some(a) && ParseCategory(CategoryName(c)) == Some(c)
  {
  }

  const DEFAULT_GRADIENT: string := "from-gray-400 to-gray-600"

  /** The fifteen entries of the gradient table. */
  function Gradient(a: Animal, c: Category): (g: string)
    ensures g != DEFAULT_GRADIENT && g != ""
  {
    match (a, c)
    case (Perro, Alimentacion) => "from-orange-400 to-amber-600"
    case (Perro, Higiene) => "from-cyan-400 to-blue-500"
    case (Perro, Salud) => "from-green-400 to-emerald-600"
    case (Perro, Accesorios) => "from-blue-400 to-indigo-600"
    case (Perro, Juguetes) => "from-yellow-400 to-orange-500"
    case (Gato, Alimentacion) => "from-purple-400 to-violet-600"
    case (Gato, Higiene) => "from-fuchsia-400 to-pink-600"
    case (Gato, Salud) => "from-teal-400 to-cyan-600"
    case (Gato, Accesorios) => "from-rose-400 to-pink-600"
    case (Gato, Juguetes) => "from-indigo-400 to-purple-600"
    case (Otros, Alimentacion) => "from-lime-400 to-green-600"
    case (Otros, Higiene) => "from-sky-400 to-blue-600"
    case (Otros, Salud) => "from-emerald-400 to-teal-600"
    case (Otros, Accesorios) => "from-amber-400 to-yellow-600"
    case (Otros, Juguetes) => "from-sky-400 to-indigo-500"
  }

  /** `getCategoryGradient`: the table's entry, else grey. */
  function CategoryGradient(animal: string, category: string): (g: string)
    ensures ParseAnimal(animal).Some? && ParseCategory(category).Some? ==>
              g == Gradient(ParseAnimal(animal).value, ParseCategory(category).value)
    ensures g == DEFAULT_GRADIENT <==> ParseAnimal(animal).None? || ParseCategory(category).None?
  {
    match (ParseAnimal(animal), ParseCategory(category))
    case (Some(a), Some(c)) => Gradient(a, c)
    case _ => DEFAULT_GRADIENT
  }

  /** A known pair, looked up by name, gets its own table entry. */
  lemma GradientByName(a: Animal, c: Category)
    ensures CategoryGradient(AnimalName(a), CategoryName(c)) == Gradient(a, c)
  {
    ParseNames(a, c);
  }

  const DOG_EMOJI: string := "\U{1F415}"
  const CAT_EMOJI: string := "\U{1F431}"
  const PAW_EMOJI: string := "\U{1F43E}"

  /** `getAnimalEmoji`. */
  function AnimalEmoji(animal: string): (e: string)
    ensures animal == "perro" ==> e == DOG_EMOJI
    ensures animal == "gato" ==> e == CAT_EMOJI
    ensures animal != "perro" && animal != "gato" ==> e == PAW_EMOJI
  {
    if animal == "perro" then DOG_EMOJI else if animal == "gato" then CAT_EMOJI else PAW_EMOJI
  }

  /** `getAnimalLabel`. */
  function AnimalLabel(animal: string): (l: string)
    ensures animal == "perro" ==> l == "Perro"
    ensures animal == "gato" ==> l == "Gato"
    ensures animal != "perro" && animal != "gato" ==> l == "Otros"
  {
    if animal == "perro" then "Perro" else if animal == "gato" then "Gato" else "Otros"
  }

  const DOG_SVG: string :=
    "<svg class=\"w-24 h-24 text-white/30\" fill=\"currentColor\" viewBox=\"0 0 24 24\"><path d=\"M18 4c-.55 0-1.05.22-1.41.59L12 9.17 7.41 4.59C7.05 4.22 6.55 4 6 4c-1.1 0-2 .9-2 2v4c0 1.1.45 2.1 1.17 2.83L9 16.66V20c0 .55.45 1 1 1h4c.55 0 1-.45 1-1v-3.34l3.83-3.83C19.55 12.1 20 11.1 20 10V6c0-1.1-.9-2-2-2z\"/></svg>"
  const CAT_SVG: string :=
    "<svg class=\"w-24 h-24 text-white/30\" fill=\"currentColor\" viewBox=\"0 0 24 24\"><path d=\"M12 2C6.48 2 2 6.48 2 12s4.48 10 10 10 10-4.48 10-10S17.52 2 12 2zm-1 15h-2v-2h2v2zm0-4h-2V7h2v6zm4 4h-2v-2h2v2zm0-4h-2V7h2v6z\"/></svg>"
  const PAW_SVG: string :=
    "<svg class=\"w-24 h-24 text-white/30\" fill=\"currentColor\" viewBox=\"0 0 24 24\"><path d=\"M12 2C6.48 2 2 6.48 2 12s4.48 10 10 10 10-4.48 10-10S17.52 2 12 2zm-2 15l-5-5 1.41-1.41L10 14.17l7.59-7.59L19 8l-9 9z\"/></svg>"

  /** `getAnimalSvgPath`. */
  function AnimalSvgPath(animal: string): (svg: string)
    ensures animal == "perro" ==> svg == DOG_SVG
    ensures animal == "gato" ==> svg == CAT_SVG
    ensures animal != "perro" && animal != "gato" ==> svg == PAW_SVG
  {
    if animal == "perro" then DOG_SVG else if animal == "gato" then CAT_SVG else PAW_SVG
  }

  /** The emoji, the label and the icon pick the same three cases: an
      animal gets the generic paw exactly when it is labelled 'Otros' and
      drawn with the generic icon, which includes 'otros' itself. */
  lemma AnimalCasesAgree(animal: string)
    ensures AnimalEmoji(animal) == PAW_EMOJI <==> AnimalLabel(animal) == "Otros"
    ensures AnimalLabel(animal) == "Otros" <==> AnimalSvgPath(animal) == PAW_SVG
    ensures AnimalEmoji(animal) == DOG_EMOJI <==> AnimalSvgPath(animal) == DOG_SVG
    ensures AnimalEmoji("otros") == PAW_EMOJI
  {
    assert DOG_EMOJI[0] != PAW_EMOJI[0] && CAT_EMOJI[0] != PAW_EMOJI[0] && DOG_EMOJI[0] != CAT_EMOJI[0];
    assert |DOG_SVG| != |PAW_SVG| && |CAT_SVG| != |PAW_SVG| && |DOG_SVG| != |CAT_SVG|;
  }

  /** `isPlaceholder`, with all four tests as written. */
  predicate IsPlaceholder(url: string) {
    url == "" || Contains(url, "placehold") || Contains(url, "placeholder") || url == ""
  }

  /** The 'placeholder' and second empty-string tests add nothing: a URL is
      a placeholder exactly when it is empty or mentions 'placehold'. */
  lemma PlaceholderSimplified(url: string)
    ensures IsPlaceholder(url) <==> url == "" || Contains(url, "placehold")
  {
    if Contains(url, "placeholder") {
      ContainsIff(url, "placeholder");
      var k: nat :| OccursAt(url, "placeholder", k);
      assert url[k..k + 9] == url[k..k + 11][..9];
      assert OccursAt(url, "placehold", k);
      ContainsIff(url, "placehold");
    }
  }
}
