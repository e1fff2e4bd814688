/** Facts about the bundled fixture data, and what the catalogue filter returns on it. */
module FixtureFacts {
  import opened Types
  import opened Text
  import opened Catalog
  import opened Constants

  /** Every service belongs to one of the listed categories. */
  lemma ServiceCategoriesExist()
    ensures forall s :: s in Services ==> exists c :: c in Categories && c.id == s.categoryId
  {
    assert Categories[0].id == Electrician.categoryId;
    assert Categories[1].id == Plumber.categoryId;
    assert Categories[2].id == Mechanic.categoryId;
    assert Categories[4].id == Tailor.categoryId;
  }

  /** Service ids are pairwise distinct, and so are category ids. */
  lemma IdsDistinct()
    ensures forall i, j :: 0 <= i < j < |Services| ==> Services[i].id != Services[j].id
    ensures forall i, j :: 0 <= i < j < |Categories| ==> Categories[i].id != Categories[j].id
  {
  }

  /** The first location is the filter's "no restriction" sentinel. */
  lemma FirstLocationIsAllAreas()
    ensures Locations[0] == AllAreas
  {
  }

  /** Both languages define the same string keys. */
  lemma UiStringsSameKeys()
    ensures UiStrings(En).Keys == UiStrings(Bn).Keys
  {
  }

  /** Each booking's Bengali status is the label of its status. */
  lemma BookingStatusLabels()
    ensures forall b :: b in SampleBookings ==> b.statusBn == StatusLabelBn(b.status)
  {
  }

  /** The filter over the fixture catalogue, service by service. */
  lemma VisibleServices(f: Filters)
    ensures Visible(Services, f) ==
              Visible([Electrician], f) + Visible([Plumber], f) + Visible([Mechanic], f) + Visible([Tailor], f)
  {
    assert Services == [Electrician] + [Plumber] + [Mechanic] + [Tailor];
    VisibleAppend([Electrician] + [Plumber] + [Mechanic], [Tailor], f);
    VisibleAppend([Electrician] + [Plumber], [Mechanic], f);
    VisibleAppend([Electrician], [Plumber], f);
  }

  /** Category "plumbing" lists exactly Karim Plumbing. */
  lemma PlumbingListsPlumber()
    ensures Visible(Services, Filters("plumbing", "", AllAreas)) == [Plumber]
  {
    var f := Filters("plumbing", "", AllAreas);
    VisibleServices(f);
    ContainsEmpty(Lower(Plumber.name));
    assert Lower("") == "";
    VisibleSingle(Electrician, f);
    VisibleSingle(Plumber, f);
    VisibleSingle(Mechanic, f);
    VisibleSingle(Tailor, f);
  }

  /** Category "painting" has no providers. */
  lemma PaintingListsNothing()
    ensures Visible(Services, Filters("painting", "", AllAreas)) == []
  {
    var f := Filters("painting", "", AllAreas);
    forall s | s in Services ensures !Matches(s, f) { }
    VisibleMembership(Services, f, Plumber);
    if Visible(Services, f) != [] {
      VisibleMembership(Services, f, Visible(Services, f)[0]);
    }
  }

  /** Rahim Electrical's description names Sarisahatir Mor. */
  lemma ElectricianInSarisahatir()
    ensures MatchesLocation(Electrician, "Sarisahatir Mor")
  {
    var loc := "Sarisahatir Mor";
    assert Electrician.description[38..38 + |loc|] == loc;
    ContainsWindow(Electrician.description, loc, 38);
  }

  /** A text lacking the capital S or the capital M does not name Sarisahatir Mor. */
  lemma NotNamingSarisahatir(d: string)
    requires 'S' !in d || 'M' !in d
    ensures !Contains(d, "Sarisahatir Mor")
  {
    if 'S' !in d {
      NotContainsMissingChar(d, "Sarisahatir Mor", 'S');
    } else {
      NotContainsMissingChar(d, "Sarisahatir Mor", 'M');
    }
  }

  /** Karim Plumbing's descriptions lack the capital S. */
  lemma PlumberNotInSarisahatir()
    ensures !MatchesLocation(Plumber, "Sarisahatir Mor")
  {
    PlumberDescriptionLacksS();
    PlumberDescriptionBnLacksS();
    NotNamingSarisahatir(Plumber.description);
    NotNamingSarisahatir(Plumber.descriptionBn);
  }

  /** Bike Doctor's descriptions lack the capital M. */
  lemma MechanicNotInSarisahatir()
    ensures !MatchesLocation(Mechanic, "Sarisahatir Mor")
  {
    MechanicDescriptionLacksM();
    MechanicDescriptionBnLacksM();
    NotNamingSarisahatir(Mechanic.description);
    NotNamingSarisahatir(Mechanic.descriptionBn);
  }

  /** Adarsha Tailors' descriptions lack the capital S. */
  lemma TailorNotInSarisahatir()
    ensures !MatchesLocation(Tailor, "Sarisahatir Mor")
  {
    TailorDescriptionLacksS();
    TailorDescriptionBnLacksS();
    NotNamingSarisahatir(Tailor.description);
    NotNamingSarisahatir(Tailor.descriptionBn);
  }

  // The absences the location lemmas use, one string per lemma.

  lemma PlumberDescriptionLacksS()
    ensures 'S' !in Plumber.description
  {
    assert Plumber.description == "Expert in pipeline repair " + "and bathroom fittings.";
    assert 'S' !in "Expert in pipeline repair ";
    assert 'S' !in "and bathroom fittings.";
  }

  lemma PlumberDescriptionBnLacksS()
    ensures 'S' !in Plumber.descriptionBn
  {
    assert Plumber.descriptionBn == "পাইপলাইন মেরামত এবং " + "বাথরুম ফিটিংসে অভিজ্ঞ।";
    assert 'S' !in "পাইপলাইন মেরামত এবং ";
    assert 'S' !in "বাথরুম ফিটিংসে অভিজ্ঞ।";
  }

  lemma MechanicDescriptionLacksM()
    ensures 'M' !in Mechanic.description
  {
    assert Mechanic.description == "Specialized in Indian and " + "Japanese bike servicing.";
    assert 'M' !in "Specialized in Indian and ";
    assert 'M' !in "Japanese bike servicing.";
  }

  lemma MechanicDescriptionBnLacksM()
    ensures 'M' !in Mechanic.descriptionBn
  {
    assert Mechanic.descriptionBn == "ইন্ডিয়ান ও জাপানিজ " + "বাইক সার্ভিসিং স্পেশালিস্ট।";
    assert 'M' !in "ইন্ডিয়ান ও জাপানিজ ";
    assert 'M' !in "বাইক সার্ভিসিং স্পেশালিস্ট।";
  }

  lemma TailorDescriptionLacksS()
    ensures 'S' !in Tailor.description
  {
    assert Tailor.description == "High quality gents " + "tailoring and fitting.";
    assert 'S' !in "High quality gents ";
    assert 'S' !in "tailoring and fitting.";
  }

  lemma TailorDescriptionBnLacksS()
    ensures 'S' !in Tailor.descriptionBn
  {
    assert Tailor.descriptionBn == "উন্নত মানের জেন্টস " + "টেইলারিং ও ফিটিং।";
    assert 'S' !in "উন্নত মানের জেন্টস ";
    assert 'S' !in "টেইলারিং ও ফিটিং।";
  }

  /** Location "Sarisahatir Mor" lists exactly Rahim Electrical, the one description that names it. */
  lemma SarisahatirListsElectrician()
    ensures Visible(Services, Filters(AllCategories, "", "Sarisahatir Mor")) == [Electrician]
  {
    var f := Filters(AllCategories, "", "Sarisahatir Mor");
    VisibleServices(f);
    EmptyQueryMatches(Electrician);
    ElectricianInSarisahatir();
    PlumberNotInSarisahatir();
    MechanicNotInSarisahatir();
    TailorNotInSarisahatir();
    VisibleSingle(Electrician, f);
    VisibleSingle(Plumber, f);
    VisibleSingle(Mechanic, f);
    VisibleSingle(Tailor, f);
  }
}
