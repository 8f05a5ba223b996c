/**
 * The category table: a label and a colour class per category key, and the
 * lookups that fall back when a key has no entry. Icons are not modelled.
 */
module Categories {
  import opened EventTypes

  /** An entry of the table; `name` is the source's `label`, a reserved word here. */
  datatype Config = Config(name: string, color: string)

  /** The key a category is stored under; every key has an entry in the table. */
  function Key(c: Category): (r: string)
    ensures r in Table
  {
    match c
    case Musica => "musica"
    case Gastronomia => "gastronomia"
    case Cultura => "cultura"
    case Natureza => "natureza"
    case Infantil => "infantil"
    case Hospedagens => "hospedagens"
  }

  /** `categoryConfig`, without the icons. */
  const Table: map<string, Config> := map[
    "musica" := Config("Música", "bg-purple-100 text-purple-700 border-purple-200"),
    "gastronomia" := Config("Gastronomia", "bg-orange-100 text-orange-700 border-orange-200"),
    "cultura" := Config("Cultura", "bg-pink-100 text-pink-700 border-pink-200"),
    "natureza" := Config("Natureza", "bg-green-100 text-green-700 border-green-200"),
    "infantil" := Config("Infantil", "bg-blue-100 text-blue-700 border-blue-200"),
    "hospedagens" := Config("Hospedagens", "bg-amber-100 text-amber-700 border-amber-200")
  ]

  const FallbackColor := "bg-gray-100 text-gray-700"

  /** `getCategoryLabel`: the configured label, or the key itself. */
  function LabelOf(key: string): (r: string)
    ensures key in Table ==> r == Table[key].name
    ensures key !in Table ==> r == key
  {
    if key in Table && Table[key].name != "" then Table[key].name else key
  }

  /** `getCategoryColor`: the configured classes, or neutral grey. */
  function ColorOf(key: string): (r: string)
    ensures key in Table ==> r == Table[key].color
    ensures key !in Table ==> r == FallbackColor
  {
    if key in Table && Table[key].color != "" then Table[key].color else FallbackColor
  }

  /** Every category has an entry, and each reads as its own label. */
  lemma CategoryLabels()
    ensures forall c :: Key(c) in Table
    ensures LabelOf(Key(Musica)) == "Música"
    ensures LabelOf(Key(Gastronomia)) == "Gastronomia"
    ensures LabelOf(Key(Cultura)) == "Cultura"
    ensures LabelOf(Key(Natureza)) == "Natureza"
    ensures LabelOf(Key(Infantil)) == "Infantil"
    ensures LabelOf(Key(Hospedagens)) == "Hospedagens"
  {
  }

  /** Distinct categories are stored under distinct keys. */
  lemma KeysDistinct(c: Category, d: Category)
    ensures Key(c) == Key(d) <==> c == d
  {
  }

  /** No two categories share a label, so a label names its category. */
  lemma LabelsDistinct(c: Category, d: Category)
    ensures LabelOf(Key(c)) == LabelOf(Key(d)) <==> c == d
  {
  }

  /** A key outside the table reads as itself, in neutral grey. */
  lemma UnknownKeyFallback(key: string)
    requires forall c :: key != Key(c)
    ensures LabelOf(key) == key && ColorOf(key) == FallbackColor
  {
    assert key != Key(Musica) && key != Key(Gastronomia) && key != Key(Cultura);
    assert key != Key(Natureza) && key != Key(Infantil) && key != Key(Hospedagens);
  }
}
