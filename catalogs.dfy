/** The five option catalogs offered by the skate-setup calculator.
    Each catalog is an ordered table of options; an option pairs the label
    shown on its button with the integer value stored when it is chosen. */
module Catalogs {

  /** One selectable option: the label (`text`) is carried as an opaque string. */
  datatype CatalogOption = CatalogOption(text: string, value: int)

  type Catalog = seq<CatalogOption>

  const WheelSizes: Catalog := [
    CatalogOption("< 50mm", 1), CatalogOption("50mm", 2), CatalogOption("51mm", 3),
    CatalogOption("52mm", 4), CatalogOption("53mm", 5), CatalogOption("54mm", 6),
    CatalogOption("55mm", 7), CatalogOption("56mm", 8), CatalogOption("57mm", 9),
    CatalogOption("58mm", 10), CatalogOption("59mm", 11), CatalogOption("60mm", 12),
    CatalogOption("> 60mm", 13)
  ]

  const WheelDuros: Catalog := [
    CatalogOption("< 78a", 1), CatalogOption("78a - 87a", 2), CatalogOption("88a - 95a", 3),
    CatalogOption("96a - 99a", 4), CatalogOption("100a - 101a", 5), CatalogOption("83b >", 6)
  ]

  const DeckWidths: Catalog := [
    CatalogOption("< 7.5\"", 1), CatalogOption("7.5\"", 2), CatalogOption("8\"", 3),
    CatalogOption("8.25\"", 4), CatalogOption("8.5\"", 5), CatalogOption("8.75\"", 6),
    CatalogOption("9\"", 7), CatalogOption("9.5\"", 8), CatalogOption("10\"", 9),
    CatalogOption(">10\"", 10)
  ]

  const Concaves: Catalog := [
    CatalogOption("Flat", 1), CatalogOption("Mellow", 2),
    CatalogOption("Medium", 3), CatalogOption("Steep", 4)
  ]

  const Abecs: Catalog := [
    CatalogOption("ABEC 1", 1), CatalogOption("ABEC 3", 2), CatalogOption("ABEC 5", 3),
    CatalogOption("ABEC 7", 4), CatalogOption("ABEC 9", 5)
  ]

  /** The values run 1, 2, ..., |c| in table order. */
  ghost predicate DenselyNumbered(c: Catalog) {
    forall i :: 0 <= i < |c| ==> c[i].value == i + 1
  }

  ghost predicate StrictlyIncreasing(c: Catalog) {
    forall i, j :: 0 <= i < j < |c| ==> c[i].value < c[j].value
  }

  ghost predicate NoDuplicateValues(c: Catalog) {
    forall i, j :: 0 <= i < |c| && 0 <= j < |c| && c[i].value == c[j].value ==> i == j
  }

  /** `v` is the value of one of the catalog's options, i.e. a value the
      radio group can hand to a setter. */
  ghost predicate InCatalog(c: Catalog, v: int) {
    exists i :: 0 <= i < |c| && c[i].value == v
  }

  /** The value of the catalog's last entry (`catalog.at(-1).value`); in an
      increasing catalog it is the largest value on offer. */
  function LastValue(c: Catalog): (m: int)
    requires |c| > 0
    ensures InCatalog(c, m)
    ensures StrictlyIncreasing(c) ==> forall i :: 0 <= i < |c| ==> c[i].value <= m
    ensures DenselyNumbered(c) ==> m == |c|
  {
    c[|c| - 1].value
  }

  /** Dense numbering from 1 gives a strictly increasing table without
      duplicate values. */
  lemma DenseIsIncreasing(c: Catalog)
    requires DenselyNumbered(c)
    ensures StrictlyIncreasing(c) && NoDuplicateValues(c)
  {
  }

  /** In a densely numbered catalog the offered values are exactly 1..|c|. */
  lemma InCatalogIffInRange(c: Catalog, v: int)
    requires DenselyNumbered(c)
    ensures InCatalog(c, v) <==> 1 <= v <= |c|
  {
    if 1 <= v <= |c| {
      assert c[v - 1].value == v;
    }
  }

  /** All five catalogs are numbered 1..n, hence strictly increasing and free
      of duplicates, so their last values, the maxima the score formulas
      read, are 13, 6, 10, 4 and 5. */
  lemma CatalogsDenselyNumbered()
    ensures DenselyNumbered(WheelSizes) && DenselyNumbered(WheelDuros)
    ensures DenselyNumbered(DeckWidths) && DenselyNumbered(Concaves) && DenselyNumbered(Abecs)
    ensures LastValue(WheelSizes) == 13 && LastValue(WheelDuros) == 6
    ensures LastValue(DeckWidths) == 10 && LastValue(Concaves) == 4 && LastValue(Abecs) == 5
    ensures StrictlyIncreasing(WheelSizes) && NoDuplicateValues(WheelSizes)
    ensures StrictlyIncreasing(WheelDuros) && NoDuplicateValues(WheelDuros)
    ensures StrictlyIncreasing(DeckWidths) && NoDuplicateValues(DeckWidths)
    ensures StrictlyIncreasing(Concaves) && NoDuplicateValues(Concaves)
    ensures StrictlyIncreasing(Abecs) && NoDuplicateValues(Abecs)
  {
    DenseIsIncreasing(WheelSizes);
    DenseIsIncreasing(WheelDuros);
    DenseIsIncreasing(DeckWidths);
    DenseIsIncreasing(Concaves);
    DenseIsIncreasing(Abecs);
  }
}
