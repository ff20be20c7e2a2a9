/**
 * The anti-fraud adapter: five curated Charity Commission resources on fraud and financial
 * crime, normalized into `anti_fraud` guidance records with `FRAUD_` ids; an item without a
 * regulator is attributed to the Charity Commission.
 */
module AntiFraud {
  import Text
  import Slug
  import opened AdapterBase
  import opened Curated

  /**
   * The titles of the resources, in list order. Each title is written as a leading literal
   * joined to the rest, so that the proof that a slug starts with a few letters only has to look
   * at the leading literal, not at the whole title.
   */
  const TITLE_0: string := "Protect your " + "charity from fraud"
  const TITLE_1: string := "Tackling charity fraud: " + "prevention is better than cure"
  const TITLE_2: string := "Compliance toolkit: protecting " + "charities from financial crime"
  const TITLE_3: string := "Charity fraud: how to spot " + "it and reduce the risks"
  const TITLE_4: string := "Preventing terrorist financing: " + "due diligence for charities"

  /** The curated resources, in list order. */
  const RESOURCE_0: Resource := Resource(
    "https://www.gov.uk/guidance/protect-your-charity-from-fraud",
    TITLE_0,
    "Practical steps for charity trustees to protect your charity from different types of fraud, including financial crime and cybercrime.",
    "CC", "2023-07-18")
  const RESOURCE_1: Resource := Resource(
    "https://www.gov.uk/government/publications/fraud-and-cybercrime-prevention-for-charities/tackling-charity-fraud-prevention-is-better-than-cure",
    TITLE_1,
    "Guidance from the Charity Commission on fraud awareness, prevention, and the steps trustees should take to protect their charity.",
    "CC", "2022-09-26")
  const RESOURCE_2: Resource := Resource(
    "https://www.gov.uk/government/publications/compliance-toolkit-protecting-charities-from-harm/chapter-3-fraud-and-financial-crime",
    TITLE_2,
    "How trustees can protect their charities from financial crime such as fraud, theft, and money laundering.",
    "CC", "2023-01-05")
  const RESOURCE_3: Resource := Resource(
    "https://www.gov.uk/government/publications/charities-fraud-and-financial-crime",
    TITLE_3,
    "Charity Commission guide to common types of charity fraud and the practical steps trustees can take to prevent it.",
    "CC", "2022-11-13")
  const RESOURCE_4: Resource := Resource(
    "https://www.gov.uk/government/publications/compliance-toolkit-chapter-2-due-diligence-monitoring-and-verification-of-end-use-of-charitable-funds",
    TITLE_4,
    "How charities operating in high-risk areas can protect themselves from terrorist financing and money laundering risks.",
    "CC", "2022-05-19")

  const RESOURCES: seq<Resource> := [RESOURCE_0, RESOURCE_1, RESOURCE_2, RESOURCE_3, RESOURCE_4]

  const PROFILE: Profile := Profile("FRAUD_", "anti_fraud", FromItem("CC"))

  /** `normalize`: one anti_fraud guidance record per raw item, in order. */
  method Normalize(items: seq<Row>) returns (records: seq<NormalizedRecord>)
    ensures |records| == |items|
    ensures forall i :: 0 <= i < |items| ==> records[i] == NormalizeItem(items[i], PROFILE)
  {
    records := Curated.Normalize(items, PROFILE);
  }

  /** The slug of title 0 starts with `prot`. */
  lemma Title0SlugPrefix()
    ensures Slug.SlugBegins(TITLE_0, "prot")
  {
    assert TITLE_0[..4] == "Prot";
    assert Text.Lower("Prot") == Slug.Spaced(["prot"], []);
    assert Slug.Dashed(["prot"]) == "prot";
    Slug.SlugBeginsWithWords(TITLE_0, "Prot", ["prot"], []);
  }

  /** The slug of title 1 starts with `t`. */
  lemma Title1SlugPrefix()
    ensures Slug.SlugBegins(TITLE_1, "t")
  {
    assert TITLE_1[..1] == "T";
    assert Text.Lower("T") == Slug.Spaced(["t"], []);
    assert Slug.Dashed(["t"]) == "t";
    Slug.SlugBeginsWithWords(TITLE_1, "T", ["t"], []);
  }

  /** The slug of title 2 starts with `co`. */
  lemma Title2SlugPrefix()
    ensures Slug.SlugBegins(TITLE_2, "co")
  {
    assert TITLE_2[..2] == "Co";
    assert Text.Lower("Co") == Slug.Spaced(["co"], []);
    assert Slug.Dashed(["co"]) == "co";
    Slug.SlugBeginsWithWords(TITLE_2, "Co", ["co"], []);
  }

  /** The slug of title 3 starts with `ch`. */
  lemma Title3SlugPrefix()
    ensures Slug.SlugBegins(TITLE_3, "ch")
  {
    assert TITLE_3[..2] == "Ch";
    assert Text.Lower("Ch") == Slug.Spaced(["ch"], []);
    assert Slug.Dashed(["ch"]) == "ch";
    Slug.SlugBeginsWithWords(TITLE_3, "Ch", ["ch"], []);
  }

  /** The slug of title 4 starts with `prev`. */
  lemma Title4SlugPrefix()
    ensures Slug.SlugBegins(TITLE_4, "prev")
  {
    assert TITLE_4[..4] == "Prev";
    assert Text.Lower("Prev") == Slug.Spaced(["prev"], []);
    assert Slug.Dashed(["prev"]) == "prev";
    Slug.SlugBeginsWithWords(TITLE_4, "Prev", ["prev"], []);
  }

  lemma Slugs0And1Differ()
    ensures Slug.Slug(TITLE_0) != Slug.Slug(TITLE_1)
  {
    Title0SlugPrefix();
    Title1SlugPrefix();
    Slug.SlugsDiffer(TITLE_0, TITLE_1, "prot", "t", 0);
  }

  lemma Slugs0And2Differ()
    ensures Slug.Slug(TITLE_0) != Slug.Slug(TITLE_2)
  {
    Title0SlugPrefix();
    Title2SlugPrefix();
    Slug.SlugsDiffer(TITLE_0, TITLE_2, "prot", "co", 0);
  }

  lemma Slugs0And3Differ()
    ensures Slug.Slug(TITLE_0) != Slug.Slug(TITLE_3)
  {
    Title0SlugPrefix();
    Title3SlugPrefix();
    Slug.SlugsDiffer(TITLE_0, TITLE_3, "prot", "ch", 0);
  }

  lemma Slugs0And4Differ()
    ensures Slug.Slug(TITLE_0) != Slug.Slug(TITLE_4)
  {
    Title0SlugPrefix();
    Title4SlugPrefix();
    Slug.SlugsDiffer(TITLE_0, TITLE_4, "prot", "prev", 2);
  }

  lemma Slugs1And2Differ()
    ensures Slug.Slug(TITLE_1) != Slug.Slug(TITLE_2)
  {
    Title1SlugPrefix();
    Title2SlugPrefix();
    Slug.SlugsDiffer(TITLE_1, TITLE_2, "t", "co", 0);
  }

  lemma Slugs1And3Differ()
    ensures Slug.Slug(TITLE_1) != Slug.Slug(TITLE_3)
  {
    Title1SlugPrefix();
    Title3SlugPrefix();
    Slug.SlugsDiffer(TITLE_1, TITLE_3, "t", "ch", 0);
  }

  lemma Slugs1And4Differ()
    ensures Slug.Slug(TITLE_1) != Slug.Slug(TITLE_4)
  {
    Title1SlugPrefix();
    Title4SlugPrefix();
    Slug.SlugsDiffer(TITLE_1, TITLE_4, "t", "prev", 0);
  }

  lemma Slugs2And3Differ()
    ensures Slug.Slug(TITLE_2) != Slug.Slug(TITLE_3)
  {
    Title2SlugPrefix();
    Title3SlugPrefix();
    Slug.SlugsDiffer(TITLE_2, TITLE_3, "co", "ch", 1);
  }

  lemma Slugs2And4Differ()
    ensures Slug.Slug(TITLE_2) != Slug.Slug(TITLE_4)
  {
    Title2SlugPrefix();
    Title4SlugPrefix();
    Slug.SlugsDiffer(TITLE_2, TITLE_4, "co", "prev", 0);
  }

  lemma Slugs3And4Differ()
    ensures Slug.Slug(TITLE_3) != Slug.Slug(TITLE_4)
  {
    Title3SlugPrefix();
    Title4SlugPrefix();
    Slug.SlugsDiffer(TITLE_3, TITLE_4, "ch", "prev", 0);
  }

  lemma ResourceTitles()
    ensures |RESOURCES| == 5
    ensures RESOURCES[0].title == TITLE_0 && RESOURCES[1].title == TITLE_1 && RESOURCES[2].title == TITLE_2 && RESOURCES[3].title == TITLE_3 && RESOURCES[4].title == TITLE_4
  {
  }

  lemma Resource0SlugDiffers()
    ensures forall j :: 0 < j < |RESOURCES| ==> Slug.Slug(RESOURCES[0].title) != Slug.Slug(RESOURCES[j].title)
  {
    ResourceTitles();
    Slugs0And1Differ();
    Slugs0And2Differ();
    Slugs0And3Differ();
    Slugs0And4Differ();
    forall j | 0 < j < |RESOURCES|
      ensures Slug.Slug(RESOURCES[0].title) != Slug.Slug(RESOURCES[j].title)
    {
      assert j == 1 || j == 2 || j == 3 || j == 4;
    }
  }

  lemma Resource1SlugDiffers()
    ensures forall j :: 1 < j < |RESOURCES| ==> Slug.Slug(RESOURCES[1].title) != Slug.Slug(RESOURCES[j].title)
  {
    ResourceTitles();
    Slugs1And2Differ();
    Slugs1And3Differ();
    Slugs1And4Differ();
    forall j | 1 < j < |RESOURCES|
      ensures Slug.Slug(RESOURCES[1].title) != Slug.Slug(RESOURCES[j].title)
    {
      assert j == 2 || j == 3 || j == 4;
    }
  }

  lemma Resource2SlugDiffers()
    ensures forall j :: 2 < j < |RESOURCES| ==> Slug.Slug(RESOURCES[2].title) != Slug.Slug(RESOURCES[j].title)
  {
    ResourceTitles();
    Slugs2And3Differ();
    Slugs2And4Differ();
    forall j | 2 < j < |RESOURCES|
      ensures Slug.Slug(RESOURCES[2].title) != Slug.Slug(RESOURCES[j].title)
    {
      assert j == 3 || j == 4;
    }
  }

  lemma Resource3SlugDiffers()
    ensures forall j :: 3 < j < |RESOURCES| ==> Slug.Slug(RESOURCES[3].title) != Slug.Slug(RESOURCES[j].title)
  {
    ResourceTitles();
    Slugs3And4Differ();
    forall j | 3 < j < |RESOURCES|
      ensures Slug.Slug(RESOURCES[3].title) != Slug.Slug(RESOURCES[j].title)
    {
      assert j == 4;
    }
  }

  /** The resources' titles have pairwise different slugs. */
  lemma ResourceSlugsDistinct()
    ensures forall i, j :: 0 <= i < j < |RESOURCES| ==> Slug.Slug(RESOURCES[i].title) != Slug.Slug(RESOURCES[j].title)
  {
    ResourceTitles();
    forall i, j | 0 <= i < j < |RESOURCES|
      ensures Slug.Slug(RESOURCES[i].title) != Slug.Slug(RESOURCES[j].title)
    {
      if i == 0 {
        Resource0SlugDiffers();
      } else if i == 1 {
        Resource1SlugDiffers();
      } else if i == 2 {
        Resource2SlugDiffers();
      } else if i == 3 {
        Resource3SlugDiffers();
      }
    }
  }

  /** The records made from the resources have pairwise different ids. */
  lemma ResourceIdsDistinct()
    ensures forall i, j :: 0 <= i < j < |RESOURCES| ==>
      NormalizeItem(Staged(RESOURCES)[i], PROFILE).id != NormalizeItem(Staged(RESOURCES)[j], PROFILE).id
  {
    ResourceSlugsDistinct();
    StagedIdsDistinct(RESOURCES, PROFILE);
  }
}
