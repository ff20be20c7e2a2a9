/**
 * The financial-reporting adapter: six curated Charity Commission and HMRC resources on
 * charity accounts, tax and Gift Aid, normalized into `financial_reporting` guidance records
 * with `FINANCE_` ids; an item without a regulator is attributed to the Charity Commission.
 */
module FinancialReporting {
  import Text
  import Slug
  import opened AdapterBase
  import opened Curated

  /**
   * The titles of the resources, in list order. Each title is written as a leading literal
   * joined to the rest, so that the proof that a slug starts with a few letters only has to look
   * at the leading literal, not at the whole title.
   */
  const TITLE_0: string := "Charity reporting and " + "accounting: the essentials"
  const TITLE_1: string := "Charities SORP " + "(FRS 102)"
  const TITLE_2: string := "Charity finances: " + "trustee essentials"
  const TITLE_3: string := "Charity tax: trading and " + "business activities"
  const TITLE_4: string := "Gift Aid: detailed " + "guidance for charities"
  const TITLE_5: string := "Internal financial " + "controls for charities"

  /** The curated resources, in list order. */
  const RESOURCE_0: Resource := Resource(
    "https://www.gov.uk/government/publications/charity-reporting-and-accounting-the-essentials-november-2016-cc15d",
    TITLE_0,
    "A guide to the accounting framework that applies to charities in England and Wales and how to prepare charity accounts and reports.",
    "CC", "2023-03-16")
  const RESOURCE_1: Resource := Resource(
    "https://www.gov.uk/government/publications/charities-sorp-2023",
    TITLE_1,
    "Statement of Recommended Practice for charity accounting - Accounting and Reporting by Charities.",
    "CC", "2023-04-01")
  const RESOURCE_2: Resource := Resource(
    "https://www.gov.uk/government/publications/charity-finances-trustee-essentials-cc25",
    TITLE_2,
    "How charity trustees should manage their charity's finances, including internal financial controls, reserves and investments.",
    "CC", "2022-05-02")
  const RESOURCE_3: Resource := Resource(
    "https://www.gov.uk/government/publications/charities-detailed-guidance-notes/annex-iv-trading-and-business-activities-basic-principles",
    TITLE_3,
    "HMRC detailed guidance on charity trading, tax exemptions, and what constitutes primary purpose trading versus non-primary purpose trading.",
    "HMRC", "2023-06-10")
  const RESOURCE_4: Resource := Resource(
    "https://www.gov.uk/government/publications/charities-detailed-guidance-notes/chapter-3-gift-aid",
    TITLE_4,
    "How charities can claim tax back on eligible donations through the Gift Aid scheme.",
    "HMRC", "2023-04-15")
  const RESOURCE_5: Resource := Resource(
    "https://www.gov.uk/government/publications/internal-financial-controls-for-charities-cc8",
    TITLE_5,
    "How charity trustees should establish robust internal financial controls to protect charity assets and prevent fraud.",
    "CC", "2022-07-22")

  const RESOURCES: seq<Resource> := [RESOURCE_0, RESOURCE_1, RESOURCE_2, RESOURCE_3, RESOURCE_4, RESOURCE_5]

  const PROFILE: Profile := Profile("FINANCE_", "financial_reporting", FromItem("CC"))

  /** `normalize`: one financial_reporting guidance record per raw item, in order. */
  method Normalize(items: seq<Row>) returns (records: seq<NormalizedRecord>)
    ensures |records| == |items|
    ensures forall i :: 0 <= i < |items| ==> records[i] == NormalizeItem(items[i], PROFILE)
  {
    records := Curated.Normalize(items, PROFILE);
  }

  lemma Head0Words()
    ensures Slug.WordsAndSeparators(["charity", "r"], [" "])
  {
  }

  lemma Head0Dashed()
    ensures Slug.Dashed(["charity", "r"]) == "charity-r"
  {
  }

  lemma Head0Lower()
    ensures Text.Lower("Charity r") == Slug.Spaced(["charity", "r"], [" "])
  {
  }

  /** The slug of title 0 starts with `charity-r`. */
  lemma Title0SlugPrefix()
    ensures Slug.SlugBegins(TITLE_0, "charity-r")
  {
    assert TITLE_0[..9] == "Charity r";
    Head0Words();
    Head0Dashed();
    Head0Lower();
    Slug.SlugBeginsWithWords(TITLE_0, "Charity r", ["charity", "r"], [" "]);
  }

  /** The slug of title 1 starts with `charities`. */
  lemma Title1SlugPrefix()
    ensures Slug.SlugBegins(TITLE_1, "charities")
  {
    assert TITLE_1[..9] == "Charities";
    assert Text.Lower("Charities") == Slug.Spaced(["charities"], []);
    assert Slug.Dashed(["charities"]) == "charities";
    Slug.SlugBeginsWithWords(TITLE_1, "Charities", ["charities"], []);
  }

  lemma Head2Words()
    ensures Slug.WordsAndSeparators(["charity", "f"], [" "])
  {
  }

  lemma Head2Dashed()
    ensures Slug.Dashed(["charity", "f"]) == "charity-f"
  {
  }

  lemma Head2Lower()
    ensures Text.Lower("Charity f") == Slug.Spaced(["charity", "f"], [" "])
  {
  }

  /** The slug of title 2 starts with `charity-f`. */
  lemma Title2SlugPrefix()
    ensures Slug.SlugBegins(TITLE_2, "charity-f")
  {
    assert TITLE_2[..9] == "Charity f";
    Head2Words();
    Head2Dashed();
    Head2Lower();
    Slug.SlugBeginsWithWords(TITLE_2, "Charity f", ["charity", "f"], [" "]);
  }

  lemma Head3Words()
    ensures Slug.WordsAndSeparators(["charity", "t"], [" "])
  {
  }

  lemma Head3Dashed()
    ensures Slug.Dashed(["charity", "t"]) == "charity-t"
  {
  }

  lemma Head3Lower()
    ensures Text.Lower("Charity t") == Slug.Spaced(["charity", "t"], [" "])
  {
  }

  /** The slug of title 3 starts with `charity-t`. */
  lemma Title3SlugPrefix()
    ensures Slug.SlugBegins(TITLE_3, "charity-t")
  {
    assert TITLE_3[..9] == "Charity t";
    Head3Words();
    Head3Dashed();
    Head3Lower();
    Slug.SlugBeginsWithWords(TITLE_3, "Charity t", ["charity", "t"], [" "]);
  }

  /** The slug of title 4 starts with `g`. */
  lemma Title4SlugPrefix()
    ensures Slug.SlugBegins(TITLE_4, "g")
  {
    assert TITLE_4[..1] == "G";
    assert Text.Lower("G") == Slug.Spaced(["g"], []);
    assert Slug.Dashed(["g"]) == "g";
    Slug.SlugBeginsWithWords(TITLE_4, "G", ["g"], []);
  }

  /** The slug of title 5 starts with `i`. */
  lemma Title5SlugPrefix()
    ensures Slug.SlugBegins(TITLE_5, "i")
  {
    assert TITLE_5[..1] == "I";
    assert Text.Lower("I") == Slug.Spaced(["i"], []);
    assert Slug.Dashed(["i"]) == "i";
    Slug.SlugBeginsWithWords(TITLE_5, "I", ["i"], []);
  }

  lemma Slugs0And1Differ()
    ensures Slug.Slug(TITLE_0) != Slug.Slug(TITLE_1)
  {
    Title0SlugPrefix();
    Title1SlugPrefix();
    Slug.SlugsDiffer(TITLE_0, TITLE_1, "charity-r", "charities", 6);
  }

  lemma Slugs0And2Differ()
    ensures Slug.Slug(TITLE_0) != Slug.Slug(TITLE_2)
  {
    Title0SlugPrefix();
    Title2SlugPrefix();
    Slug.SlugsDiffer(TITLE_0, TITLE_2, "charity-r", "charity-f", 8);
  }

  lemma Slugs0And3Differ()
    ensures Slug.Slug(TITLE_0) != Slug.Slug(TITLE_3)
  {
    Title0SlugPrefix();
    Title3SlugPrefix();
    Slug.SlugsDiffer(TITLE_0, TITLE_3, "charity-r", "charity-t", 8);
  }

  lemma Slugs0And4Differ()
    ensures Slug.Slug(TITLE_0) != Slug.Slug(TITLE_4)
  {
    Title0SlugPrefix();
    Title4SlugPrefix();
    Slug.SlugsDiffer(TITLE_0, TITLE_4, "charity-r", "g", 0);
  }

  lemma Slugs0And5Differ()
    ensures Slug.Slug(TITLE_0) != Slug.Slug(TITLE_5)
  {
    Title0SlugPrefix();
    Title5SlugPrefix();
    Slug.SlugsDiffer(TITLE_0, TITLE_5, "charity-r", "i", 0);
  }

  lemma Slugs1And2Differ()
    ensures Slug.Slug(TITLE_1) != Slug.Slug(TITLE_2)
  {
    Title1SlugPrefix();
    Title2SlugPrefix();
    Slug.SlugsDiffer(TITLE_1, TITLE_2, "charities", "charity-f", 6);
  }

  lemma Slugs1And3Differ()
    ensures Slug.Slug(TITLE_1) != Slug.Slug(TITLE_3)
  {
    Title1SlugPrefix();
    Title3SlugPrefix();
    Slug.SlugsDiffer(TITLE_1, TITLE_3, "charities", "charity-t", 6);
  }

  lemma Slugs1And4Differ()
    ensures Slug.Slug(TITLE_1) != Slug.Slug(TITLE_4)
  {
    Title1SlugPrefix();
    Title4SlugPrefix();
    Slug.SlugsDiffer(TITLE_1, TITLE_4, "charities", "g", 0);
  }

  lemma Slugs1And5Differ()
    ensures Slug.Slug(TITLE_1) != Slug.Slug(TITLE_5)
  {
    Title1SlugPrefix();
    Title5SlugPrefix();
    Slug.SlugsDiffer(TITLE_1, TITLE_5, "charities", "i", 0);
  }

  lemma Slugs2And3Differ()
    ensures Slug.Slug(TITLE_2) != Slug.Slug(TITLE_3)
  {
    Title2SlugPrefix();
    Title3SlugPrefix();
    Slug.SlugsDiffer(TITLE_2, TITLE_3, "charity-f", "charity-t", 8);
  }

  lemma Slugs2And4Differ()
    ensures Slug.Slug(TITLE_2) != Slug.Slug(TITLE_4)
  {
    Title2SlugPrefix();
    Title4SlugPrefix();
    Slug.SlugsDiffer(TITLE_2, TITLE_4, "charity-f", "g", 0);
  }

  lemma Slugs2And5Differ()
    ensures Slug.Slug(TITLE_2) != Slug.Slug(TITLE_5)
  {
    Title2SlugPrefix();
    Title5SlugPrefix();
    Slug.SlugsDiffer(TITLE_2, TITLE_5, "charity-f", "i", 0);
  }

  lemma Slugs3And4Differ()
    ensures Slug.Slug(TITLE_3) != Slug.Slug(TITLE_4)
  {
    Title3SlugPrefix();
    Title4SlugPrefix();
    Slug.SlugsDiffer(TITLE_3, TITLE_4, "charity-t", "g", 0);
  }

  lemma Slugs3And5Differ()
    ensures Slug.Slug(TITLE_3) != Slug.Slug(TITLE_5)
  {
    Title3SlugPrefix();
    Title5SlugPrefix();
    Slug.SlugsDiffer(TITLE_3, TITLE_5, "charity-t", "i", 0);
  }

  lemma Slugs4And5Differ()
    ensures Slug.Slug(TITLE_4) != Slug.Slug(TITLE_5)
  {
    Title4SlugPrefix();
    Title5SlugPrefix();
    Slug.SlugsDiffer(TITLE_4, TITLE_5, "g", "i", 0);
  }

  lemma ResourceTitles()
    ensures |RESOURCES| == 6
    ensures RESOURCES[0].title == TITLE_0 && RESOURCES[1].title == TITLE_1 && RESOURCES[2].title == TITLE_2 && RESOURCES[3].title == TITLE_3 && RESOURCES[4].title == TITLE_4 && RESOURCES[5].title == TITLE_5
  {
  }

  lemma Resource0SlugDiffers()
    ensures forall j :: 0 < j < |RESOURCES| ==> Slug.Slug(RESOURCES[0].title) != Slug.Slug(RESOURCES[j].title)
  {
    ResourceTitles();
    Slugs0And1Differ();
    Slugs0And2Differ();
    Slugs0And3Differ();
    Slugs0And4Differ();
    Slugs0And5Differ();
    forall j | 0 < j < |RESOURCES|
      ensures Slug.Slug(RESOURCES[0].title) != Slug.Slug(RESOURCES[j].title)
    {
      assert j == 1 || j == 2 || j == 3 || j == 4 || j == 5;
    }
  }

  lemma Resource1SlugDiffers()
    ensures forall j :: 1 < j < |RESOURCES| ==> Slug.Slug(RESOURCES[1].title) != Slug.Slug(RESOURCES[j].title)
  {
    ResourceTitles();
    Slugs1And2Differ();
    Slugs1And3Differ();
    Slugs1And4Differ();
    Slugs1And5Differ();
    forall j | 1 < j < |RESOURCES|
      ensures Slug.Slug(RESOURCES[1].title) != Slug.Slug(RESOURCES[j].title)
    {
      assert j == 2 || j == 3 || j == 4 || j == 5;
    }
  }

  lemma Resource2SlugDiffers()
    ensures forall j :: 2 < j < |RESOURCES| ==> Slug.Slug(RESOURCES[2].title) != Slug.Slug(RESOURCES[j].title)
  {
    ResourceTitles();
    Slugs2And3Differ();
    Slugs2And4Differ();
    Slugs2And5Differ();
    forall j | 2 < j < |RESOURCES|
      ensures Slug.Slug(RESOURCES[2].title) != Slug.Slug(RESOURCES[j].title)
    {
      assert j == 3 || j == 4 || j == 5;
    }
  }

  lemma Resource3SlugDiffers()
    ensures forall j :: 3 < j < |RESOURCES| ==> Slug.Slug(RESOURCES[3].title) != Slug.Slug(RESOURCES[j].title)
  {
    ResourceTitles();
    Slugs3And4Differ();
    Slugs3And5Differ();
    forall j | 3 < j < |RESOURCES|
      ensures Slug.Slug(RESOURCES[3].title) != Slug.Slug(RESOURCES[j].title)
    {
      assert j == 4 || j == 5;
    }
  }

  lemma Resource4SlugDiffers()
    ensures forall j :: 4 < j < |RESOURCES| ==> Slug.Slug(RESOURCES[4].title) != Slug.Slug(RESOURCES[j].title)
  {
    ResourceTitles();
    Slugs4And5Differ();
    forall j | 4 < j < |RESOURCES|
      ensures Slug.Slug(RESOURCES[4].title) != Slug.Slug(RESOURCES[j].title)
    {
      assert j == 5;
    }
  }

  /** The resources' titles have pairwise different slugs. */
  lemma ResourceSlugsDistinct()
    ensures forall i, j :: 0 <= i < j < |RESOURCES| ==> Slug.Slug(RESOURCES[i].title) != Slug.Slug(RESOURCES[j].title)
  {
    ResourceTitles();
    forall i, j | 0 <= i < j < |RESOURCES|
      ensures Slug.Slug(RESOURCES[i].title) != Slug.Slug(RESOURCES[j].title)
    {
      if i == 0 {
        Resource0SlugDiffers();
      } else if i == 1 {
        Resource1SlugDiffers();
      } else if i == 2 {
        Resource2SlugDiffers();
      } else if i == 3 {
        Resource3SlugDiffers();
      } else if i == 4 {
        Resource4SlugDiffers();
      }
    }
  }

  /** The records made from the resources have pairwise different ids. */
  lemma ResourceIdsDistinct()
    ensures forall i, j :: 0 <= i < j < |RESOURCES| ==>
      NormalizeItem(Staged(RESOURCES)[i], PROFILE).id != NormalizeItem(Staged(RESOURCES)[j], PROFILE).id
  {
    ResourceSlugsDistinct();
    StagedIdsDistinct(RESOURCES, PROFILE);
  }
}
