/**
 * The risk-management adapter: five curated Charity Commission resources on managing risk,
 * volunteers and due diligence, normalized into `risk_management` guidance records with
 * `RISK_` ids; an item without a regulator is attributed to the Charity Commission.
 */
module RiskManagement {
  import Text
  import Slug
  import opened AdapterBase
  import opened Curated

  /**
   * The titles of the resources, in list order. Each title is written as a leading literal
   * joined to the rest, so that the proof that a slug starts with a few letters only has to look
   * at the leading literal, not at the whole title.
   */
  const TITLE_0: string := "Charities and risk " + "management (CC26)"
  const TITLE_1: string := "How to manage risks " + "in your charity"
  const TITLE_2: string := "How to manage your " + "charity's volunteers"
  const TITLE_3: string := "Apply risk management " + "principles to your charity"
  const TITLE_4: string := "Charities: due diligence and " + "monitoring end use of funds"

  /** The curated resources, in list order. */
  const RESOURCE_0: Resource := Resource(
    "https://www.gov.uk/government/publications/charities-and-risk-management-cc26",
    TITLE_0,
    "How charity trustees should approach risk management and the requirements to report on risk in the trustees' annual report.",
    "CC", "2022-11-09")
  const RESOURCE_1: Resource := Resource(
    "https://www.gov.uk/government/publications/how-to-manage-risks-in-your-charity",
    TITLE_1,
    "Practical guidance on identifying risks, establishing a risk management framework, and reporting on risk management.",
    "CC", "2023-03-14")
  const RESOURCE_2: Resource := Resource(
    "https://www.gov.uk/guidance/how-to-manage-your-charitys-volunteers",
    TITLE_2,
    "Guidance for charity trustees on recruiting, supporting and managing volunteers, including managing associated risks.",
    "CC", "2022-09-08")
  const RESOURCE_3: Resource := Resource(
    "https://www.gov.uk/guidance/apply-risk-management",
    TITLE_3,
    "Practical steps for charity trustees to identify and mitigate risks to their organization, people, and assets.",
    "CC", "2023-05-21")
  const RESOURCE_4: Resource := Resource(
    "https://www.gov.uk/government/publications/charities-due-diligence-checks-and-monitoring-end-use-of-funds",
    TITLE_4,
    "How charities should undertake due diligence on those individuals and organizations that receive charity funds or work closely with the charity.",
    "CC", "2022-07-11")

  const RESOURCES: seq<Resource> := [RESOURCE_0, RESOURCE_1, RESOURCE_2, RESOURCE_3, RESOURCE_4]

  const PROFILE: Profile := Profile("RISK_", "risk_management", FromItem("CC"))

  /** `normalize`: one risk_management guidance record per raw item, in order. */
  method Normalize(items: seq<Row>) returns (records: seq<NormalizedRecord>)
    ensures |records| == |items|
    ensures forall i :: 0 <= i < |items| ==> records[i] == NormalizeItem(items[i], PROFILE)
  {
    records := Curated.Normalize(items, PROFILE);
  }

  lemma Head0Words()
    ensures Slug.WordsAndSeparators(["charities", "a"], [" "])
  {
  }

  lemma Head0Dashed()
    ensures Slug.Dashed(["charities", "a"]) == "charities-a"
  {
  }

  lemma Head0Lower()
    ensures Text.Lower("Charities a") == Slug.Spaced(["charities", "a"], [" "])
  {
  }

  /** The slug of title 0 starts with `charities-a`. */
  lemma Title0SlugPrefix()
    ensures Slug.SlugBegins(TITLE_0, "charities-a")
  {
    assert TITLE_0[..11] == "Charities a";
    Head0Words();
    Head0Dashed();
    Head0Lower();
    Slug.SlugBeginsWithWords(TITLE_0, "Charities a", ["charities", "a"], [" "]);
  }

  lemma Head1Words()
    ensures Slug.WordsAndSeparators(["how", "to", "manage", "r"], [" ", " ", " "])
  {
  }

  lemma Head1Dashed()
    ensures Slug.Dashed(["how", "to", "manage", "r"]) == "how-to-manage-r"
  {
  }

  lemma Head1Lower()
    ensures Text.Lower("How to manage r") == Slug.Spaced(["how", "to", "manage", "r"], [" ", " ", " "])
  {
  }

  /** The slug of title 1 starts with `how-to-manage-r`. */
  lemma Title1SlugPrefix()
    ensures Slug.SlugBegins(TITLE_1, "how-to-manage-r")
  {
    assert TITLE_1[..15] == "How to manage r";
    Head1Words();
    Head1Dashed();
    Head1Lower();
    Slug.SlugBeginsWithWords(TITLE_1, "How to manage r", ["how", "to", "manage", "r"], [" ", " ", " "]);
  }

  lemma Head2Words()
    ensures Slug.WordsAndSeparators(["how", "to", "manage", "y"], [" ", " ", " "])
  {
  }

  lemma Head2Dashed()
    ensures Slug.Dashed(["how", "to", "manage", "y"]) == "how-to-manage-y"
  {
  }

  lemma Head2Lower()
    ensures Text.Lower("How to manage y") == Slug.Spaced(["how", "to", "manage", "y"], [" ", " ", " "])
  {
  }

  /** The slug of title 2 starts with `how-to-manage-y`. */
  lemma Title2SlugPrefix()
    ensures Slug.SlugBegins(TITLE_2, "how-to-manage-y")
  {
    assert TITLE_2[..15] == "How to manage y";
    Head2Words();
    Head2Dashed();
    Head2Lower();
    Slug.SlugBeginsWithWords(TITLE_2, "How to manage y", ["how", "to", "manage", "y"], [" ", " ", " "]);
  }

  /** The slug of title 3 starts with `a`. */
  lemma Title3SlugPrefix()
    ensures Slug.SlugBegins(TITLE_3, "a")
  {
    assert TITLE_3[..1] == "A";
    assert Text.Lower("A") == Slug.Spaced(["a"], []);
    assert Slug.Dashed(["a"]) == "a";
    Slug.SlugBeginsWithWords(TITLE_3, "A", ["a"], []);
  }

  lemma Head4Words()
    ensures Slug.WordsAndSeparators(["charities", "d"], [": "])
  {
  }

  lemma Head4Dashed()
    ensures Slug.Dashed(["charities", "d"]) == "charities-d"
  {
  }

  lemma Head4Lower()
    ensures Text.Lower("Charities: d") == Slug.Spaced(["charities", "d"], [": "])
  {
  }

  /** The slug of title 4 starts with `charities-d`. */
  lemma Title4SlugPrefix()
    ensures Slug.SlugBegins(TITLE_4, "charities-d")
  {
    assert TITLE_4[..12] == "Charities: d";
    Head4Words();
    Head4Dashed();
    Head4Lower();
    Slug.SlugBeginsWithWords(TITLE_4, "Charities: d", ["charities", "d"], [": "]);
  }

  lemma Slugs0And1Differ()
    ensures Slug.Slug(TITLE_0) != Slug.Slug(TITLE_1)
  {
    Title0SlugPrefix();
    Title1SlugPrefix();
    Slug.SlugsDiffer(TITLE_0, TITLE_1, "charities-a", "how-to-manage-r", 0);
  }

  lemma Slugs0And2Differ()
    ensures Slug.Slug(TITLE_0) != Slug.Slug(TITLE_2)
  {
    Title0SlugPrefix();
    Title2SlugPrefix();
    Slug.SlugsDiffer(TITLE_0, TITLE_2, "charities-a", "how-to-manage-y", 0);
  }

  lemma Slugs0And3Differ()
    ensures Slug.Slug(TITLE_0) != Slug.Slug(TITLE_3)
  {
    Title0SlugPrefix();
    Title3SlugPrefix();
    Slug.SlugsDiffer(TITLE_0, TITLE_3, "charities-a", "a", 0);
  }

  lemma Slugs0And4Differ()
    ensures Slug.Slug(TITLE_0) != Slug.Slug(TITLE_4)
  {
    Title0SlugPrefix();
    Title4SlugPrefix();
    Slug.SlugsDiffer(TITLE_0, TITLE_4, "charities-a", "charities-d", 10);
  }

  lemma Slugs1And2Differ()
    ensures Slug.Slug(TITLE_1) != Slug.Slug(TITLE_2)
  {
    Title1SlugPrefix();
    Title2SlugPrefix();
    Slug.SlugsDiffer(TITLE_1, TITLE_2, "how-to-manage-r", "how-to-manage-y", 14);
  }

  lemma Slugs1And3Differ()
    ensures Slug.Slug(TITLE_1) != Slug.Slug(TITLE_3)
  {
    Title1SlugPrefix();
    Title3SlugPrefix();
    Slug.SlugsDiffer(TITLE_1, TITLE_3, "how-to-manage-r", "a", 0);
  }

  lemma Slugs1And4Differ()
    ensures Slug.Slug(TITLE_1) != Slug.Slug(TITLE_4)
  {
    Title1SlugPrefix();
    Title4SlugPrefix();
    Slug.SlugsDiffer(TITLE_1, TITLE_4, "how-to-manage-r", "charities-d", 0);
  }

  lemma Slugs2And3Differ()
    ensures Slug.Slug(TITLE_2) != Slug.Slug(TITLE_3)
  {
    Title2SlugPrefix();
    Title3SlugPrefix();
    Slug.SlugsDiffer(TITLE_2, TITLE_3, "how-to-manage-y", "a", 0);
  }

  lemma Slugs2And4Differ()
    ensures Slug.Slug(TITLE_2) != Slug.Slug(TITLE_4)
  {
    Title2SlugPrefix();
    Title4SlugPrefix();
    Slug.SlugsDiffer(TITLE_2, TITLE_4, "how-to-manage-y", "charities-d", 0);
  }

  lemma Slugs3And4Differ()
    ensures Slug.Slug(TITLE_3) != Slug.Slug(TITLE_4)
  {
    Title3SlugPrefix();
    Title4SlugPrefix();
    Slug.SlugsDiffer(TITLE_3, TITLE_4, "a", "charities-d", 0);
  }

  lemma ResourceTitles()
    ensures |RESOURCES| == 5
    ensures RESOURCES[0].title == TITLE_0 && RESOURCES[1].title == TITLE_1 && RESOURCES[2].title == TITLE_2 && RESOURCES[3].title == TITLE_3 && RESOURCES[4].title == TITLE_4
  {
  }

  lemma Resource0SlugDiffers()
    ensures forall j :: 0 < j < |RESOURCES| ==> Slug.Slug(RESOURCES[0].title) != Slug.Slug(RESOURCES[j].title)
  {
    ResourceTitles();
    Slugs0And1Differ();
    Slugs0And2Differ();
    Slugs0And3Differ();
    Slugs0And4Differ();
    forall j | 0 < j < |RESOURCES|
      ensures Slug.Slug(RESOURCES[0].title) != Slug.Slug(RESOURCES[j].title)
    {
      assert j == 1 || j == 2 || j == 3 || j == 4;
    }
  }

  lemma Resource1SlugDiffers()
    ensures forall j :: 1 < j < |RESOURCES| ==> Slug.Slug(RESOURCES[1].title) != Slug.Slug(RESOURCES[j].title)
  {
    ResourceTitles();
    Slugs1And2Differ();
    Slugs1And3Differ();
    Slugs1And4Differ();
    forall j | 1 < j < |RESOURCES|
      ensures Slug.Slug(RESOURCES[1].title) != Slug.Slug(RESOURCES[j].title)
    {
      assert j == 2 || j == 3 || j == 4;
    }
  }

  lemma Resource2SlugDiffers()
    ensures forall j :: 2 < j < |RESOURCES| ==> Slug.Slug(RESOURCES[2].title) != Slug.Slug(RESOURCES[j].title)
  {
    ResourceTitles();
    Slugs2And3Differ();
    Slugs2And4Differ();
    forall j | 2 < j < |RESOURCES|
      ensures Slug.Slug(RESOURCES[2].title) != Slug.Slug(RESOURCES[j].title)
    {
      assert j == 3 || j == 4;
    }
  }

  lemma Resource3SlugDiffers()
    ensures forall j :: 3 < j < |RESOURCES| ==> Slug.Slug(RESOURCES[3].title) != Slug.Slug(RESOURCES[j].title)
  {
    ResourceTitles();
    Slugs3And4Differ();
    forall j | 3 < j < |RESOURCES|
      ensures Slug.Slug(RESOURCES[3].title) != Slug.Slug(RESOURCES[j].title)
    {
      assert j == 4;
    }
  }

  /** The resources' titles have pairwise different slugs. */
  lemma ResourceSlugsDistinct()
    ensures forall i, j :: 0 <= i < j < |RESOURCES| ==> Slug.Slug(RESOURCES[i].title) != Slug.Slug(RESOURCES[j].title)
  {
    ResourceTitles();
    forall i, j | 0 <= i < j < |RESOURCES|
      ensures Slug.Slug(RESOURCES[i].title) != Slug.Slug(RESOURCES[j].title)
    {
      if i == 0 {
        Resource0SlugDiffers();
      } else if i == 1 {
        Resource1SlugDiffers();
      } else if i == 2 {
        Resource2SlugDiffers();
      } else if i == 3 {
        Resource3SlugDiffers();
      }
    }
  }

  /** The records made from the resources have pairwise different ids. */
  lemma ResourceIdsDistinct()
    ensures forall i, j :: 0 <= i < j < |RESOURCES| ==>
      NormalizeItem(Staged(RESOURCES)[i], PROFILE).id != NormalizeItem(Staged(RESOURCES)[j], PROFILE).id
  {
    ResourceSlugsDistinct();
    StagedIdsDistinct(RESOURCES, PROFILE);
  }
}
