/**
 * The public partner list (components/pages/allies-list-page.tsx): a name
 * search and two optional chip filters, by service type and by sector, that
 * start from the `tipo` and `sector` URL parameters.  The filters hold the
 * strings the URL gave, so an unknown value is possible and matches nothing.
 */
module AlliesList {

  import opened Wrappers
  import opened Text
  import opened Lists
  import opened Types
  import Booking

  /** The string a service type has in the data. */
  function ServiceTypeName(t: ServiceType): string {
    match t
    case MedicalService => "medical"
    case LaboratoryService => "laboratory"
    case ImagingService => "imaging"
    case PharmacyService => "pharmacy"
    case DentalService => "dental"
  }

  /** The type chips: every type but "medical". */
  const TypeOptions: seq<ServiceType> := [LaboratoryService, ImagingService, PharmacyService, DentalService]

  const SectorOptions: seq<Sector> := [Norte, Centro, Sur]

  lemma ChipsOffered()
    ensures MedicalService !in TypeOptions && |TypeOptions| == 4
    ensures forall t :: t != MedicalService ==> t in TypeOptions
    ensures forall s: Sector :: s in SectorOptions
  {
    forall s: Sector ensures s in SectorOptions {
      match s
      case Norte => assert SectorOptions[0] == s;
      case Centro => assert SectorOptions[1] == s;
      case Sur => assert SectorOptions[2] == s;
    }
  }

  /** `getTypeLabel`: known types get a Spanish label, anything else is shown as is. */
  function TypeLabel(t: string): (r: string)
    ensures t == "laboratory" ==> r == "Laboratorio"
    ensures t == "imaging" ==> r == "Rayos X / Imagen"
    ensures t == "pharmacy" ==> r == "Farmacia"
    ensures t == "dental" ==> r == "Odontología"
    ensures t == "medical" ==> r == "Médico"
    ensures t !in {"laboratory", "imaging", "pharmacy", "dental", "medical"} ==> r == t
  {
    if t == "laboratory" then "Laboratorio"
    else if t == "imaging" then "Rayos X / Imagen"
    else if t == "pharmacy" then "Farmacia"
    else if t == "dental" then "Odontología"
    else if t == "medical" then "Médico"
    else t
  }

  /** `getSectorLabel` of this page: the capitalised name, anything else as is. */
  function SectorLabel(s: string): (r: string)
    ensures s == "norte" ==> r == "Norte"
    ensures s == "centro" ==> r == "Centro"
    ensures s == "sur" ==> r == "Sur"
    ensures s != "norte" && s != "centro" && s != "sur" ==> r == s
    ensures s == "norte" || s == "centro" || s == "sur" ==> Booking.SectorLabel(s) == "Sector " + r
    ensures s != "norte" && s != "centro" && s != "sur" ==> Booking.SectorLabel(s) == r
  {
    if s == "norte" then "Norte" else if s == "centro" then "Centro" else if s == "sur" then "Sur" else s
  }

  /** Every service type has its own label. */
  lemma TypeLabelsDistinct(a: ServiceType, b: ServiceType)
    ensures TypeLabel(ServiceTypeName(a)) == TypeLabel(ServiceTypeName(b)) <==> a == b
  {
  }

  predicate Shows(a: Ally, term: string, typeFilter: Option<string>, sectorFilter: Option<string>) {
    && ContainsIgnoringCase(a.name, term)
    && (!Present(typeFilter) || ServiceTypeName(a.serviceType) == typeFilter.value)
    && (!Present(sectorFilter) || Booking.SectorName(a.sector) == sectorFilter.value)
  }

  function Filtered(allies: seq<Ally>, term: string, typeFilter: Option<string>, sectorFilter: Option<string>)
    : (r: seq<Ally>)
    ensures forall a :: a in r <==> a in allies && Shows(a, term, typeFilter, sectorFilter)
    ensures IsSubsequence(r, allies)
    ensures forall a :: multiset(r)[a] == if Shows(a, term, typeFilter, sectorFilter) then multiset(allies)[a] else 0
  {
    Filter(allies, (a: Ally) => Shows(a, term, typeFilter, sectorFilter))
  }

  /** A type filter that names no service type hides every partner. */
  lemma UnknownTypeHidesAll(allies: seq<Ally>, term: string, t: string, sectorFilter: Option<string>)
    requires t != "" && forall k: ServiceType :: ServiceTypeName(k) != t
    ensures Filtered(allies, term, Some(t), sectorFilter) == []
  {
    FilterNone(allies, (a: Ally) => Shows(a, term, Some(t), sectorFilter));
  }

  /** A chip click: the selected chip clears the filter, any other chip selects itself. */
  function Toggle(current: Option<string>, chip: string): (r: Option<string>)
    ensures current == Some(chip) ==> r.None?
    ensures current != Some(chip) ==> r == Some(chip)
  {
    if current == Some(chip) then None else Some(chip)
  }

  /** Two clicks on one chip restore the filter exactly when it was clear or already that chip. */
  lemma ToggleTwice(current: Option<string>, chip: string)
    ensures Toggle(Toggle(current, chip), chip) == current <==> current.None? || current == Some(chip)
  {
  }

  class AlliesPage {
    var searchTerm: string
    var typeFilter: Option<string>
    var sectorFilter: Option<string>

    /** Both filters start from the URL parameters. */
    constructor (tipo: Option<string>, sector: Option<string>)
      ensures searchTerm == "" && typeFilter == tipo && sectorFilter == sector
    {
      searchTerm, typeFilter, sectorFilter := "", tipo, sector;
    }

    function Shown(allies: seq<Ally>): seq<Ally>
      reads this
    {
      Filtered(allies, searchTerm, typeFilter, sectorFilter)
    }

    /** The effect that follows a change of the URL parameters. */
    method SyncParameters(tipo: Option<string>, sector: Option<string>)
      modifies this
      ensures typeFilter == tipo && sectorFilter == sector && searchTerm == old(searchTerm)
    {
      typeFilter, sectorFilter := tipo, sector;
    }

    method SetSearchTerm(term: string)
      modifies this
      ensures searchTerm == term && typeFilter == old(typeFilter) && sectorFilter == old(sectorFilter)
    {
      searchTerm := term;
    }

    method ClickTypeChip(t: ServiceType)
      modifies this
      ensures typeFilter == Toggle(old(typeFilter), ServiceTypeName(t))
      ensures searchTerm == old(searchTerm) && sectorFilter == old(sectorFilter)
    {
      typeFilter := Toggle(typeFilter, ServiceTypeName(t));
    }

    method ClickSectorChip(s: Sector)
      modifies this
      ensures sectorFilter == Toggle(old(sectorFilter), Booking.SectorName(s))
      ensures searchTerm == old(searchTerm) && typeFilter == old(typeFilter)
    {
      sectorFilter := Toggle(sectorFilter, Booking.SectorName(s));
    }

    method ClearType()
      modifies this
      ensures typeFilter.None? && searchTerm == old(searchTerm) && sectorFilter == old(sectorFilter)
    {
      typeFilter := None;
    }

    method ClearSector()
      modifies this
      ensures sectorFilter.None? && searchTerm == old(searchTerm) && typeFilter == old(typeFilter)
    {
      sectorFilter := None;
    }

    /** "Limpiar todos": both chips cleared, the search kept. */
    method ClearFilters()
      modifies this
      ensures typeFilter.None? && sectorFilter.None? && searchTerm == old(searchTerm)
    {
      typeFilter := None;
      sectorFilter := None;
    }

    /** "Ver todos los aliados": chips and search cleared, so every partner shows again. */
    method ShowAll(allies: seq<Ally>)
      modifies this
      ensures typeFilter.None? && sectorFilter.None? && searchTerm == ""
      ensures Shown(allies) == allies
    {
      typeFilter := None;
      sectorFilter := None;
      searchTerm := "";
      forall a | a in allies ensures Shows(a, "", None, None) {
        ContainsIgnoringCaseEmpty(a.name);
      }
      FilterAll(allies, (a: Ally) => Shows(a, "", None, None));
    }
  }
}
