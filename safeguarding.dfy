/**
 * The safeguarding adapter: five curated gov.uk, NCVO and NSPCC resources, normalized into
 * `safeguarding` guidance records with `SAFEGUARDING_` ids. Every record is attributed to the
 * Charity Commission, whatever regulator the item names.
 */
module Safeguarding {
  import Text
  import Slug
  import opened AdapterBase
  import opened Curated

  /**
   * The titles of the resources, in list order. Each title is written as a leading literal
   * joined to the rest, so that the proof that a slug starts with a few letters only has to look
   * at the leading literal, not at the whole title.
   */
  const TITLE_0: string := "Strategy for dealing with " + "safeguarding issues in charities"
  const TITLE_1: string := "Safeguarding duties for " + "charity trustees"
  const TITLE_2: string := "Safeguarding children in charities " + "and voluntary organizations"
  const TITLE_3: string := "Safeguarding essentials for " + "voluntary organizations"
  const TITLE_4: string := "NSPCC Safeguarding for voluntary " + "and community organizations"

  /** The curated resources, in list order. */
  const RESOURCE_0: Resource := Resource(
    "https://www.gov.uk/government/publications/strategy-for-dealing-with-safeguarding-issues-in-charities",
    TITLE_0,
    "How the Charity Commission approaches safeguarding concerns and works with other agencies to address them.",
    "CC", "2018-12-06")
  const RESOURCE_1: Resource := Resource(
    "https://www.gov.uk/guidance/safeguarding-duties-for-charity-trustees",
    TITLE_1,
    "How trustees should protect people who come into contact with their charity through its work from abuse or mistreatment of any kind.",
    "CC", "2022-10-14")
  const RESOURCE_2: Resource := Resource(
    "https://www.gov.uk/government/publications/safeguarding-children-and-protecting-professionals-in-early-years-settings-online-safety-considerations",
    TITLE_2,
    "Guidance for people working in charities and voluntary organisations with children, including avoiding risks and handling incidents.",
    "CC", "2019-02-04")
  const RESOURCE_3: Resource := Resource(
    "https://www.ncvo.org.uk/help-and-guidance/safeguarding/",
    TITLE_3,
    "NCVO guidance on safeguarding for charities with step-by-step advice and free templates.",
    "CC", "2023-07-01")
  const RESOURCE_4: Resource := Resource(
    "https://learning.nspcc.org.uk/safeguarding-child-protection/for-voluntary-community-groups",
    TITLE_4,
    "Resources to help voluntary, community and faith organizations keep children safe, including guidance on writing policies and procedures.",
    "CC", "2023-10-15")

  const RESOURCES: seq<Resource> := [RESOURCE_0, RESOURCE_1, RESOURCE_2, RESOURCE_3, RESOURCE_4]

  const PROFILE: Profile := Profile("SAFEGUARDING_", "safeguarding", Fixed("CC"))

  /** `normalize`: one safeguarding guidance record per raw item, in order. */
  method Normalize(items: seq<Row>) returns (records: seq<NormalizedRecord>)
    ensures |records| == |items|
    ensures forall i :: 0 <= i < |items| ==> records[i] == NormalizeItem(items[i], PROFILE)
  {
    records := Curated.Normalize(items, PROFILE);
  }

  /** The slug of title 0 starts with `st`. */
  lemma Title0SlugPrefix()
    ensures Slug.SlugBegins(TITLE_0, "st")
  {
    assert TITLE_0[..2] == "St";
    assert Text.Lower("St") == Slug.Spaced(["st"], []);
    assert Slug.Dashed(["st"]) == "st";
    Slug.SlugBeginsWithWords(TITLE_0, "St", ["st"], []);
  }

  lemma Head1Words()
    ensures Slug.WordsAndSeparators(["safeguarding", "d"], [" "])
  {
  }

  lemma Head1Dashed()
    ensures Slug.Dashed(["safeguarding", "d"]) == "safeguarding-d"
  {
  }

  lemma Head1Lower()
    ensures Text.Lower("Safeguarding d") == Slug.Spaced(["safeguarding", "d"], [" "])
  {
  }

  /** The slug of title 1 starts with `safeguarding-d`. */
  lemma Title1SlugPrefix()
    ensures Slug.SlugBegins(TITLE_1, "safeguarding-d")
  {
    assert TITLE_1[..14] == "Safeguarding d";
    Head1Words();
    Head1Dashed();
    Head1Lower();
    Slug.SlugBeginsWithWords(TITLE_1, "Safeguarding d", ["safeguarding", "d"], [" "]);
  }

  lemma Head2Words()
    ensures Slug.WordsAndSeparators(["safeguarding", "c"], [" "])
  {
  }

  lemma Head2Dashed()
    ensures Slug.Dashed(["safeguarding", "c"]) == "safeguarding-c"
  {
  }

  lemma Head2Lower()
    ensures Text.Lower("Safeguarding c") == Slug.Spaced(["safeguarding", "c"], [" "])
  {
  }

  /** The slug of title 2 starts with `safeguarding-c`. */
  lemma Title2SlugPrefix()
    ensures Slug.SlugBegins(TITLE_2, "safeguarding-c")
  {
    assert TITLE_2[..14] == "Safeguarding c";
    Head2Words();
    Head2Dashed();
    Head2Lower();
    Slug.SlugBeginsWithWords(TITLE_2, "Safeguarding c", ["safeguarding", "c"], [" "]);
  }

  lemma Head3Words()
    ensures Slug.WordsAndSeparators(["safeguarding", "e"], [" "])
  {
  }

  lemma Head3Dashed()
    ensures Slug.Dashed(["safeguarding", "e"]) == "safeguarding-e"
  {
  }

  lemma Head3Lower()
    ensures Text.Lower("Safeguarding e") == Slug.Spaced(["safeguarding", "e"], [" "])
  {
  }

  /** The slug of title 3 starts with `safeguarding-e`. */
  lemma Title3SlugPrefix()
    ensures Slug.SlugBegins(TITLE_3, "safeguarding-e")
  {
    assert TITLE_3[..14] == "Safeguarding e";
    Head3Words();
    Head3Dashed();
    Head3Lower();
    Slug.SlugBeginsWithWords(TITLE_3, "Safeguarding e", ["safeguarding", "e"], [" "]);
  }

  /** The slug of title 4 starts with `n`. */
  lemma Title4SlugPrefix()
    ensures Slug.SlugBegins(TITLE_4, "n")
  {
    assert TITLE_4[..1] == "N";
    assert Text.Lower("N") == Slug.Spaced(["n"], []);
    assert Slug.Dashed(["n"]) == "n";
    Slug.SlugBeginsWithWords(TITLE_4, "N", ["n"], []);
  }

  lemma Slugs0And1Differ()
    ensures Slug.Slug(TITLE_0) != Slug.Slug(TITLE_1)
  {
    Title0SlugPrefix();
    Title1SlugPrefix();
    Slug.SlugsDiffer(TITLE_0, TITLE_1, "st", "safeguarding-d", 1);
  }

  lemma Slugs0And2Differ()
    ensures Slug.Slug(TITLE_0) != Slug.Slug(TITLE_2)
  {
    Title0SlugPrefix();
    Title2SlugPrefix();
    Slug.SlugsDiffer(TITLE_0, TITLE_2, "st", "safeguarding-c", 1);
  }

  lemma Slugs0And3Differ()
    ensures Slug.Slug(TITLE_0) != Slug.Slug(TITLE_3)
  {
    Title0SlugPrefix();
    Title3SlugPrefix();
    Slug.SlugsDiffer(TITLE_0, TITLE_3, "st", "safeguarding-e", 1);
  }

  lemma Slugs0And4Differ()
    ensures Slug.Slug(TITLE_0) != Slug.Slug(TITLE_4)
  {
    Title0SlugPrefix();
    Title4SlugPrefix();
    Slug.SlugsDiffer(TITLE_0, TITLE_4, "st", "n", 0);
  }

  lemma Slugs1And2Differ()
    ensures Slug.Slug(TITLE_1) != Slug.Slug(TITLE_2)
  {
    Title1SlugPrefix();
    Title2SlugPrefix();
    Slug.SlugsDiffer(TITLE_1, TITLE_2, "safeguarding-d", "safeguarding-c", 13);
  }

  lemma Slugs1And3Differ()
    ensures Slug.Slug(TITLE_1) != Slug.Slug(TITLE_3)
  {
    Title1SlugPrefix();
    Title3SlugPrefix();
    Slug.SlugsDiffer(TITLE_1, TITLE_3, "safeguarding-d", "safeguarding-e", 13);
  }

  lemma Slugs1And4Differ()
    ensures Slug.Slug(TITLE_1) != Slug.Slug(TITLE_4)
  {
    Title1SlugPrefix();
    Title4SlugPrefix();
    Slug.SlugsDiffer(TITLE_1, TITLE_4, "safeguarding-d", "n", 0);
  }

  lemma Slugs2And3Differ()
    ensures Slug.Slug(TITLE_2) != Slug.Slug(TITLE_3)
  {
    Title2SlugPrefix();
    Title3SlugPrefix();
    Slug.SlugsDiffer(TITLE_2, TITLE_3, "safeguarding-c", "safeguarding-e", 13);
  }

  lemma Slugs2And4Differ()
    ensures Slug.Slug(TITLE_2) != Slug.Slug(TITLE_4)
  {
    Title2SlugPrefix();
    Title4SlugPrefix();
    Slug.SlugsDiffer(TITLE_2, TITLE_4, "safeguarding-c", "n", 0);
  }

  lemma Slugs3And4Differ()
    ensures Slug.Slug(TITLE_3) != Slug.Slug(TITLE_4)
  {
    Title3SlugPrefix();
    Title4SlugPrefix();
    Slug.SlugsDiffer(TITLE_3, TITLE_4, "safeguarding-e", "n", 0);
  }

  lemma ResourceTitles()
    ensures |RESOURCES| == 5
    ensures RESOURCES[0].title == TITLE_0 && RESOURCES[1].title == TITLE_1 && RESOURCES[2].title == TITLE_2 && RESOURCES[3].title == TITLE_3 && RESOURCES[4].title == TITLE_4
  {
  }

  lemma Resource0SlugDiffers()
    ensures forall j :: 0 < j < |RESOURCES| ==> Slug.Slug(RESOURCES[0].title) != Slug.Slug(RESOURCES[j].title)
  {
    ResourceTitles();
    Slugs0And1Differ();
    Slugs0And2Differ();
    Slugs0And3Differ();
    Slugs0And4Differ();
    forall j | 0 < j < |RESOURCES|
      ensures Slug.Slug(RESOURCES[0].title) != Slug.Slug(RESOURCES[j].title)
    {
      assert j == 1 || j == 2 || j == 3 || j == 4;
    }
  }

  lemma Resource1SlugDiffers()
    ensures forall j :: 1 < j < |RESOURCES| ==> Slug.Slug(RESOURCES[1].title) != Slug.Slug(RESOURCES[j].title)
  {
    ResourceTitles();
    Slugs1And2Differ();
    Slugs1And3Differ();
    Slugs1And4Differ();
    forall j | 1 < j < |RESOURCES|
      ensures Slug.Slug(RESOURCES[1].title) != Slug.Slug(RESOURCES[j].title)
    {
      assert j == 2 || j == 3 || j == 4;
    }
  }

  lemma Resource2SlugDiffers()
    ensures forall j :: 2 < j < |RESOURCES| ==> Slug.Slug(RESOURCES[2].title) != Slug.Slug(RESOURCES[j].title)
  {
    ResourceTitles();
    Slugs2And3Differ();
    Slugs2And4Differ();
    forall j | 2 < j < |RESOURCES|
      ensures Slug.Slug(RESOURCES[2].title) != Slug.Slug(RESOURCES[j].title)
    {
      assert j == 3 || j == 4;
    }
  }

  lemma Resource3SlugDiffers()
    ensures forall j :: 3 < j < |RESOURCES| ==> Slug.Slug(RESOURCES[3].title) != Slug.Slug(RESOURCES[j].title)
  {
    ResourceTitles();
    Slugs3And4Differ();
    forall j | 3 < j < |RESOURCES|
      ensures Slug.Slug(RESOURCES[3].title) != Slug.Slug(RESOURCES[j].title)
    {
      assert j == 4;
    }
  }

  /** The resources' titles have pairwise different slugs. */
  lemma ResourceSlugsDistinct()
    ensures forall i, j :: 0 <= i < j < |RESOURCES| ==> Slug.Slug(RESOURCES[i].title) != Slug.Slug(RESOURCES[j].title)
  {
    ResourceTitles();
    forall i, j | 0 <= i < j < |RESOURCES|
      ensures Slug.Slug(RESOURCES[i].title) != Slug.Slug(RESOURCES[j].title)
    {
      if i == 0 {
        Resource0SlugDiffers();
      } else if i == 1 {
        Resource1SlugDiffers();
      } else if i == 2 {
        Resource2SlugDiffers();
      } else if i == 3 {
        Resource3SlugDiffers();
      }
    }
  }

  /** The records made from the resources have pairwise different ids. */
  lemma ResourceIdsDistinct()
    ensures forall i, j :: 0 <= i < j < |RESOURCES| ==>
      NormalizeItem(Staged(RESOURCES)[i], PROFILE).id != NormalizeItem(Staged(RESOURCES)[j], PROFILE).id
  {
    ResourceSlugsDistinct();
    StagedIdsDistinct(RESOURCES, PROFILE);
  }
}
