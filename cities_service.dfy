/** `services/CitiesService` of the city-read function, from the asynchronous repository's
    completion onward. `Mono.fromCompletionStage` completes empty when the future yields null,
    so only a present item reaches `handle`: an empty one becomes not-found, and any other is
    given to the mapper exactly once, whose exception becomes the error signal. A failed
    lookup passes through. The mapper is a parameter. */
module CitiesService {
  import opened Common
  import opened Dynamo
  import opened ReadErrors

  const NoCityFoundMessage := "No city found with the provided ID."

  /** `findById`: `Ok(None)` is the empty `Mono`, `Ok(Some(city))` a city emitted, `Err` an
      error signal. */
  function FindById<T>(completion: Result<Option<Item>, ReadError>, mapToCity: Item -> Result<T, ReadError>)
    : (r: Result<Option<T>, ReadError>)
    ensures completion.Err? ==> r == Err(completion.error)
    ensures completion == Ok(None) ==> r == Ok(None)
    ensures completion == Ok(Some(map[])) ==> r == Err(ResourceNotFound(NoCityFoundMessage))
    ensures completion.Ok? && completion.value.Some? && completion.value.value != map[] ==>
      var mapped := mapToCity(completion.value.value);
      && (mapped.Ok? ==> r == Ok(Some(mapped.value)))
      && (mapped.Err? ==> r == Err(mapped.error))
    ensures (r.Ok? && r.value.Some?) <==>
      completion.Ok? && completion.value.Some? && completion.value.value != map[]
      && mapToCity(completion.value.value).Ok?
  {
    var item :- completion;
    if item.None? then Ok(None)
    else if item.value == map[] then Err(ResourceNotFound(NoCityFoundMessage))
    else
      var city :- mapToCity(item.value);
      Ok(Some(city))
  }

  /** Not-found is raised only for an empty item: the null check inside `handle` never fires,
      and a null completion is an empty result the mapper never sees. */
  lemma NotFoundOnlyForEmptyItem<T>(completion: Result<Option<Item>, ReadError>, mapToCity: Item -> Result<T, ReadError>)
    requires forall item :: mapToCity(item) != Err(ResourceNotFound(NoCityFoundMessage))
    ensures FindById(completion, mapToCity) == Err(ResourceNotFound(NoCityFoundMessage)) <==>
      completion == Ok(Some(map[])) || completion == Err(ResourceNotFound(NoCityFoundMessage))
  {
  }

  /** The mapper is not consulted when nothing is found. */
  lemma MapperUnusedWhenNotFound<T>(completion: Result<Option<Item>, ReadError>, f: Item -> Result<T, ReadError>,
                                    g: Item -> Result<T, ReadError>)
    requires completion.Err? || completion.value.None? || completion.value.value == map[]
    ensures FindById(completion, f) == FindById(completion, g)
  {
  }
}
