/** The test-scoped controller selectors: each narrows the controller mapping
    of the selector it extends to an allow-list of controller types. */
module ControllerSelection {
  import opened Wrappers

  /** A controller class, identified by its full type name. */
  datatype ControllerType = ControllerType(fullName: string)

  datatype HttpControllerDescriptor = HttpControllerDescriptor(controllerName: string, controllerType: ControllerType)

  /** The two selectors. The plain one extends the default selector, the
      versioned one the API-version-aware selector; each holds the allow-list
      it was constructed with, which may be null (`None`). */
  datatype ControllerSelector =
    | UnitTestControllerSelector(targetControllers: Option<seq<ControllerType>>)
    | VersionedUnitTestControllerSelector(targetControllers: Option<seq<ControllerType>>)
  {
    /** `GetControllerMapping()`: the entries of the base selector's mapping
        whose controller type is allowed, under their original keys. With no
        allow-list the result is empty: the filter fails closed. */
    function GetControllerMapping(baseMapping: map<string, HttpControllerDescriptor>)
      : (r: map<string, HttpControllerDescriptor>)
      ensures targetControllers.None? ==> r == map[]
      ensures forall key :: key in r ==> key in baseMapping && r[key] == baseMapping[key]
      ensures forall key :: key in baseMapping ==>
        (key in r <==> targetControllers.Some? && baseMapping[key].controllerType in targetControllers.value)
    {
      if targetControllers.Some? then
        map key | key in baseMapping && baseMapping[key].controllerType in targetControllers.value :: baseMapping[key]
      else
        map[]
    }
  }

  /** An allow-list with no types keeps nothing, like a missing one. */
  lemma EmptyAllowListYieldsEmptyMapping(selector: ControllerSelector,
                                         baseMapping: map<string, HttpControllerDescriptor>)
    requires selector.targetControllers == Some([])
    ensures selector.GetControllerMapping(baseMapping) == map[]
  {
  }

  /** Filtering a filtered mapping again with the same allow-list changes nothing. */
  lemma FilterIdempotent(selector: ControllerSelector, baseMapping: map<string, HttpControllerDescriptor>)
    ensures var once := selector.GetControllerMapping(baseMapping);
      selector.GetControllerMapping(once) == once
  {
  }

  /** Both selectors share one definition of `GetControllerMapping`, so for
      the same base mapping and allow-list they return the same mapping; they
      differ only in which base selector supplies that mapping. */
  lemma VariantsAgree(targets: Option<seq<ControllerType>>, baseMapping: map<string, HttpControllerDescriptor>)
    ensures UnitTestControllerSelector(targets).GetControllerMapping(baseMapping)
         == VersionedUnitTestControllerSelector(targets).GetControllerMapping(baseMapping)
  {
  }

  /** Adding a type to the allow-list only adds entries: every entry kept
      before is kept after, and the new ones are exactly those of that type. */
  lemma AllowListMonotone(targets: seq<ControllerType>, extra: ControllerType,
                          baseMapping: map<string, HttpControllerDescriptor>)
    ensures var before := UnitTestControllerSelector(Some(targets)).GetControllerMapping(baseMapping);
      var after := UnitTestControllerSelector(Some(targets + [extra])).GetControllerMapping(baseMapping);
      && before.Keys <= after.Keys
      && forall key :: key in after && key !in before ==> after[key].controllerType == extra
  {
  }
}
