/** `ProfileDatasetConstellation`: a profile dataset to be created, with a
    vertical parameter name and a unit that the first creation defaults and
    keeps. `EntityBuilder.createUnit` is read as building a unit from its
    name and service; `updateDatasetEntity` as attaching the parent entities. */
module ProfileConstellation {
  import opened Wrappers
  import opened Entities

  /** The vertical parameter name a profile starts with. */
  const DEFAULT_VERTICAL_PARAMETER: string := "depth"

  /** The constellation: its identifying ids, the domain id the base class
      holds, the vertical parameter name and the unit, `null` until set or
      defaulted. */
  datatype Profile = Profile(
    procedure: string,
    offering: string,
    category: string,
    phenomenon: string,
    feature: string,
    domainId: string,
    verticalParameterName: string,
    unit: Option<Unit>)

  /** The parent entities passed to `createDatasetEntity`, by id. */
  datatype Parents = Parents(procedure: string, category: string, feature: string, offering: string, phenomenon: string)

  /** A `ProfileDatasetEntity`: domain id, parents, service, unit, vertical
      parameter name and the first and last value times. */
  datatype ProfileDataset = ProfileDataset(
    domainId: string,
    parents: Parents,
    service: ProxyService,
    unit: Unit,
    verticalParameterName: string,
    firstValueAt: int,
    lastValueAt: int)

  /** The constellation and the dataset one `createDatasetEntity` call leaves. */
  datatype Created = Created(constellation: Profile, dataset: ProfileDataset)

  /** The constructor: no unit and the default vertical parameter name. */
  function NewProfile(procedure: string, offering: string, category: string, phenomenon: string,
                      feature: string, domainId: string): (r: Profile)
    ensures r.verticalParameterName == DEFAULT_VERTICAL_PARAMETER && r.unit.None?
    ensures r.domainId == domainId
  {
    Profile(procedure, offering, category, phenomenon, feature, domainId, DEFAULT_VERTICAL_PARAMETER, None)
  }

  /** `setUnit`, `null` included. */
  function SetUnit(p: Profile, unit: Option<Unit>): Profile {
    p.(unit := unit)
  }

  /** `createDatasetEntity`: defaults a missing unit to the unnamed unit of
      `service` and stores it back, then builds the dataset. `first` and
      `last` are the two clock readings taken for the value times. */
  function CreateDatasetEntity(p: Profile, parents: Parents, service: ProxyService, first: int, last: int)
    : Created
  {
    var q := if p.unit.None? then p.(unit := Some(Unit("", service))) else p;
    Created(q, ProfileDataset(p.domainId, parents, service, q.unit.value, q.verticalParameterName, first, last))
  }

  /** The dataset takes the constellation's domain id and vertical parameter
      name, and its unit is the one set, or else the unnamed unit of the
      service. Only the unit of the constellation can change: it becomes the
      dataset's unit. */
  lemma CreateFields(p: Profile, parents: Parents, service: ProxyService, first: int, last: int)
    ensures var c := CreateDatasetEntity(p, parents, service, first, last);
      && c.dataset.domainId == p.domainId
      && c.dataset.verticalParameterName == p.verticalParameterName
      && c.dataset.parents == parents && c.dataset.service == service
      && c.dataset.firstValueAt == first && c.dataset.lastValueAt == last
      && (p.unit.Some? ==> c.dataset.unit == p.unit.value)
      && (p.unit.None? ==> c.dataset.unit == Unit("", service))
      && c.constellation == p.(unit := Some(c.dataset.unit))
  {
  }

  /** A fresh constellation creates a dataset with the vertical parameter "depth". */
  lemma FreshIsDepth(procedure: string, offering: string, category: string, phenomenon: string, feature: string,
                     domainId: string, parents: Parents, service: ProxyService, first: int, last: int)
    ensures CreateDatasetEntity(NewProfile(procedure, offering, category, phenomenon, feature, domainId),
                                parents, service, first, last).dataset.verticalParameterName == "depth"
  {
  }

  /** A unit set through `setUnit` is used exactly, for every service. */
  lemma SetUnitUsed(p: Profile, unit: Unit, parents: Parents, service: ProxyService, first: int, last: int)
    ensures CreateDatasetEntity(SetUnit(p, Some(unit)), parents, service, first, last).dataset.unit == unit
  {
  }

  /** The defaulted unit is stored back: a second creation, even for another
      service, reuses the unit of the first service instead of a new one, and
      leaves the constellation as it is. */
  lemma DefaultReused(p: Profile, parents1: Parents, service1: ProxyService, parents2: Parents,
                      service2: ProxyService, first1: int, last1: int, first2: int, last2: int)
    requires p.unit.None?
    ensures var c1 := CreateDatasetEntity(p, parents1, service1, first1, last1);
      var c2 := CreateDatasetEntity(c1.constellation, parents2, service2, first2, last2);
      && c2.dataset.unit == c1.dataset.unit == Unit("", service1)
      && c2.constellation == c1.constellation
  {
  }
}
