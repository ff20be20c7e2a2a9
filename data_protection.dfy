/**
 * The data-protection adapter: five curated Information Commissioner's Office and gov.uk
 * resources for charities, normalized into `gdpr` guidance records with `GDPR_` ids; an item
 * without a regulator is attributed to the ICO.
 */
module DataProtection {
  import Text
  import Slug
  import opened AdapterBase
  import opened Curated

  /**
   * The titles of the resources, in list order. Each title is written as a leading literal
   * joined to the rest, so that the proof that a slug starts with a few letters only has to look
   * at the leading literal, not at the whole title.
   */
  const TITLE_0: string := "Data protection for charities and " + "small voluntary organisations"
  const TITLE_1: string := "GDPR compliance for charities " + "and voluntary organisations"
  const TITLE_2: string := "Charity FAQs on " + "data protection"
  const TITLE_3: string := "Data protection and privacy " + "guidance for the charity sector"
  const TITLE_4: string := "Data protection " + "self-assessment for charities"

  /** The curated resources, in list order. */
  const RESOURCE_0: Resource := Resource(
    "https://ico.org.uk/for-organisations/charity/",
    TITLE_0,
    "ICO guidance on how charities should comply with data protection law including GDPR, marketing rules, and handling personal data.",
    "ICO", "2023-09-22")
  const RESOURCE_1: Resource := Resource(
    "https://ico.org.uk/for-organisations/uk-gdpr-guidance-and-resources/guidance-for-charity-and-voluntary-organisations/",
    TITLE_1,
    "Information Commissioner's Office guidance on handling personal data, fundraising, and marketing in compliance with UK GDPR.",
    "ICO", "2023-06-10")
  const RESOURCE_2: Resource := Resource(
    "https://ico.org.uk/for-organisations/charity/charities-faqs/",
    TITLE_2,
    "Answers to common questions about how data protection applies to charitable activities.",
    "ICO", "2022-11-18")
  const RESOURCE_3: Resource := Resource(
    "https://www.gov.uk/government/publications/data-protection-and-privacy-guidance-for-the-charity-sector",
    TITLE_3,
    "Guidance on collecting, storing and using personal data in accordance with data protection legislation, including when sharing information with other organisations.",
    "ICO", "2023-02-14")
  const RESOURCE_4: Resource := Resource(
    "https://ico.org.uk/for-organisations/charity/data-protection-self-assessment-for-charities/",
    TITLE_4,
    "Self-assessment toolkit to help charities evaluate their compliance with data protection law and identify areas for improvement.",
    "ICO", "2022-08-20")

  const RESOURCES: seq<Resource> := [RESOURCE_0, RESOURCE_1, RESOURCE_2, RESOURCE_3, RESOURCE_4]

  const PROFILE: Profile := Profile("GDPR_", "gdpr", FromItem("ICO"))

  /** `normalize`: one gdpr guidance record per raw item, in order. */
  method Normalize(items: seq<Row>) returns (records: seq<NormalizedRecord>)
    ensures |records| == |items|
    ensures forall i :: 0 <= i < |items| ==> records[i] == NormalizeItem(items[i], PROFILE)
  {
    records := Curated.Normalize(items, PROFILE);
  }

  lemma Head0Words()
    ensures Slug.WordsAndSeparators(["data", "protection", "f"], [" ", " "])
  {
  }

  lemma Head0Dashed()
    ensures Slug.Dashed(["data", "protection", "f"]) == "data-protection-f"
  {
  }

  lemma Head0Lower()
    ensures Text.Lower("Data protection f") == Slug.Spaced(["data", "protection", "f"], [" ", " "])
  {
  }

  /** The slug of title 0 starts with `data-protection-f`. */
  lemma Title0SlugPrefix()
    ensures Slug.SlugBegins(TITLE_0, "data-protection-f")
  {
    assert TITLE_0[..17] == "Data protection f";
    Head0Words();
    Head0Dashed();
    Head0Lower();
    Slug.SlugBeginsWithWords(TITLE_0, "Data protection f", ["data", "protection", "f"], [" ", " "]);
  }

  /** The slug of title 1 starts with `g`. */
  lemma Title1SlugPrefix()
    ensures Slug.SlugBegins(TITLE_1, "g")
  {
    assert TITLE_1[..1] == "G";
    assert Text.Lower("G") == Slug.Spaced(["g"], []);
    assert Slug.Dashed(["g"]) == "g";
    Slug.SlugBeginsWithWords(TITLE_1, "G", ["g"], []);
  }

  /** The slug of title 2 starts with `c`. */
  lemma Title2SlugPrefix()
    ensures Slug.SlugBegins(TITLE_2, "c")
  {
    assert TITLE_2[..1] == "C";
    assert Text.Lower("C") == Slug.Spaced(["c"], []);
    assert Slug.Dashed(["c"]) == "c";
    Slug.SlugBeginsWithWords(TITLE_2, "C", ["c"], []);
  }

  lemma Head3Words()
    ensures Slug.WordsAndSeparators(["data", "protection", "a"], [" ", " "])
  {
  }

  lemma Head3Dashed()
    ensures Slug.Dashed(["data", "protection", "a"]) == "data-protection-a"
  {
  }

  lemma Head3Lower()
    ensures Text.Lower("Data protection a") == Slug.Spaced(["data", "protection", "a"], [" ", " "])
  {
  }

  /** The slug of title 3 starts with `data-protection-a`. */
  lemma Title3SlugPrefix()
    ensures Slug.SlugBegins(TITLE_3, "data-protection-a")
  {
    assert TITLE_3[..17] == "Data protection a";
    Head3Words();
    Head3Dashed();
    Head3Lower();
    Slug.SlugBeginsWithWords(TITLE_3, "Data protection a", ["data", "protection", "a"], [" ", " "]);
  }

  lemma Head4Words()
    ensures Slug.WordsAndSeparators(["data", "protection", "s"], [" ", " "])
  {
  }

  lemma Head4Dashed()
    ensures Slug.Dashed(["data", "protection", "s"]) == "data-protection-s"
  {
  }

  lemma Head4Lower()
    ensures Text.Lower("Data protection s") == Slug.Spaced(["data", "protection", "s"], [" ", " "])
  {
  }

  /** The slug of title 4 starts with `data-protection-s`. */
  lemma Title4SlugPrefix()
    ensures Slug.SlugBegins(TITLE_4, "data-protection-s")
  {
    assert TITLE_4[..17] == "Data protection s";
    Head4Words();
    Head4Dashed();
    Head4Lower();
    Slug.SlugBeginsWithWords(TITLE_4, "Data protection s", ["data", "protection", "s"], [" ", " "]);
  }

  lemma Slugs0And1Differ()
    ensures Slug.Slug(TITLE_0) != Slug.Slug(TITLE_1)
  {
    Title0SlugPrefix();
    Title1SlugPrefix();
    Slug.SlugsDiffer(TITLE_0, TITLE_1, "data-protection-f", "g", 0);
  }

  lemma Slugs0And2Differ()
    ensures Slug.Slug(TITLE_0) != Slug.Slug(TITLE_2)
  {
    Title0SlugPrefix();
    Title2SlugPrefix();
    Slug.SlugsDiffer(TITLE_0, TITLE_2, "data-protection-f", "c", 0);
  }

  lemma Slugs0And3Differ()
    ensures Slug.Slug(TITLE_0) != Slug.Slug(TITLE_3)
  {
    Title0SlugPrefix();
    Title3SlugPrefix();
    Slug.SlugsDiffer(TITLE_0, TITLE_3, "data-protection-f", "data-protection-a", 16);
  }

  lemma Slugs0And4Differ()
    ensures Slug.Slug(TITLE_0) != Slug.Slug(TITLE_4)
  {
    Title0SlugPrefix();
    Title4SlugPrefix();
    Slug.SlugsDiffer(TITLE_0, TITLE_4, "data-protection-f", "data-protection-s", 16);
  }

  lemma Slugs1And2Differ()
    ensures Slug.Slug(TITLE_1) != Slug.Slug(TITLE_2)
  {
    Title1SlugPrefix();
    Title2SlugPrefix();
    Slug.SlugsDiffer(TITLE_1, TITLE_2, "g", "c", 0);
  }

  lemma Slugs1And3Differ()
    ensures Slug.Slug(TITLE_1) != Slug.Slug(TITLE_3)
  {
    Title1SlugPrefix();
    Title3SlugPrefix();
    Slug.SlugsDiffer(TITLE_1, TITLE_3, "g", "data-protection-a", 0);
  }

  lemma Slugs1And4Differ()
    ensures Slug.Slug(TITLE_1) != Slug.Slug(TITLE_4)
  {
    Title1SlugPrefix();
    Title4SlugPrefix();
    Slug.SlugsDiffer(TITLE_1, TITLE_4, "g", "data-protection-s", 0);
  }

  lemma Slugs2And3Differ()
    ensures Slug.Slug(TITLE_2) != Slug.Slug(TITLE_3)
  {
    Title2SlugPrefix();
    Title3SlugPrefix();
    Slug.SlugsDiffer(TITLE_2, TITLE_3, "c", "data-protection-a", 0);
  }

  lemma Slugs2And4Differ()
    ensures Slug.Slug(TITLE_2) != Slug.Slug(TITLE_4)
  {
    Title2SlugPrefix();
    Title4SlugPrefix();
    Slug.SlugsDiffer(TITLE_2, TITLE_4, "c", "data-protection-s", 0);
  }

  lemma Slugs3And4Differ()
    ensures Slug.Slug(TITLE_3) != Slug.Slug(TITLE_4)
  {
    Title3SlugPrefix();
    Title4SlugPrefix();
    Slug.SlugsDiffer(TITLE_3, TITLE_4, "data-protection-a", "data-protection-s", 16);
  }

  lemma ResourceTitles()
    ensures |RESOURCES| == 5
    ensures RESOURCES[0].title == TITLE_0 && RESOURCES[1].title == TITLE_1 && RESOURCES[2].title == TITLE_2 && RESOURCES[3].title == TITLE_3 && RESOURCES[4].title == TITLE_4
  {
  }

  lemma Resource0SlugDiffers()
    ensures forall j :: 0 < j < |RESOURCES| ==> Slug.Slug(RESOURCES[0].title) != Slug.Slug(RESOURCES[j].title)
  {
    ResourceTitles();
    Slugs0And1Differ();
    Slugs0And2Differ();
    Slugs0And3Differ();
    Slugs0And4Differ();
    forall j | 0 < j < |RESOURCES|
      ensures Slug.Slug(RESOURCES[0].title) != Slug.Slug(RESOURCES[j].title)
    {
      assert j == 1 || j == 2 || j == 3 || j == 4;
    }
  }

  lemma Resource1SlugDiffers()
    ensures forall j :: 1 < j < |RESOURCES| ==> Slug.Slug(RESOURCES[1].title) != Slug.Slug(RESOURCES[j].title)
  {
    ResourceTitles();
    Slugs1And2Differ();
    Slugs1And3Differ();
    Slugs1And4Differ();
    forall j | 1 < j < |RESOURCES|
      ensures Slug.Slug(RESOURCES[1].title) != Slug.Slug(RESOURCES[j].title)
    {
      assert j == 2 || j == 3 || j == 4;
    }
  }

  lemma Resource2SlugDiffers()
    ensures forall j :: 2 < j < |RESOURCES| ==> Slug.Slug(RESOURCES[2].title) != Slug.Slug(RESOURCES[j].title)
  {
    ResourceTitles();
    Slugs2And3Differ();
    Slugs2And4Differ();
    forall j | 2 < j < |RESOURCES|
      ensures Slug.Slug(RESOURCES[2].title) != Slug.Slug(RESOURCES[j].title)
    {
      assert j == 3 || j == 4;
    }
  }

  lemma Resource3SlugDiffers()
    ensures forall j :: 3 < j < |RESOURCES| ==> Slug.Slug(RESOURCES[3].title) != Slug.Slug(RESOURCES[j].title)
  {
    ResourceTitles();
    Slugs3And4Differ();
    forall j | 3 < j < |RESOURCES|
      ensures Slug.Slug(RESOURCES[3].title) != Slug.Slug(RESOURCES[j].title)
    {
      assert j == 4;
    }
  }

  /** The resources' titles have pairwise different slugs. */
  lemma ResourceSlugsDistinct()
    ensures forall i, j :: 0 <= i < j < |RESOURCES| ==> Slug.Slug(RESOURCES[i].title) != Slug.Slug(RESOURCES[j].title)
  {
    ResourceTitles();
    forall i, j | 0 <= i < j < |RESOURCES|
      ensures Slug.Slug(RESOURCES[i].title) != Slug.Slug(RESOURCES[j].title)
    {
      if i == 0 {
        Resource0SlugDiffers();
      } else if i == 1 {
        Resource1SlugDiffers();
      } else if i == 2 {
        Resource2SlugDiffers();
      } else if i == 3 {
        Resource3SlugDiffers();
      }
    }
  }

  /** The records made from the resources have pairwise different ids. */
  lemma ResourceIdsDistinct()
    ensures forall i, j :: 0 <= i < j < |RESOURCES| ==>
      NormalizeItem(Staged(RESOURCES)[i], PROFILE).id != NormalizeItem(Staged(RESOURCES)[j], PROFILE).id
  {
    ResourceSlugsDistinct();
    StagedIdsDistinct(RESOURCES, PROFILE);
  }
}
