/** The response records of the city-data function, `dto/CityDataResponse` and
    `dto/CityResponse`, each with its mutable `Builder`: five nullable fields, one setter per
    field that assigns that field and returns the same builder, and a `build` that copies the
    fields into a record without changing the builder. */
module DataResponses {
  import opened Common

  datatype CityDataResponse = CityDataResponse(
    cityId: Option<string>,
    name: Option<string>,
    timezone: Option<string>,
    httpStatus: Option<int>,
    errorMessage: Option<string>)

  datatype CityResponse = CityResponse(
    id: Option<string>,
    name: Option<string>,
    timezone: Option<string>,
    httpStatus: Option<int>,
    errorMessage: Option<string>)

  /** `CityDataResponse.Builder`. */
  class CityDataResponseBuilder {
    var cityId: Option<string>
    var name: Option<string>
    var timezone: Option<string>
    var httpStatus: Option<int>
    var errorMessage: Option<string>

    /** The fields, in declaration order, as the record they describe. */
    function Fields(): CityDataResponse
      reads this
    {
      CityDataResponse(cityId, name, timezone, httpStatus, errorMessage)
    }

    /** `new Builder()`: every field null. */
    constructor ()
      ensures Fields() == CityDataResponse(None, None, None, None, None)
    {
      cityId, name, timezone, httpStatus, errorMessage := None, None, None, None, None;
    }

    method CityId(id: Option<string>) returns (b: CityDataResponseBuilder)
      modifies this
      ensures b == this && Fields() == old(Fields()).(cityId := id)
    {
      cityId := id;
      b := this;
    }

    method Name(name: Option<string>) returns (b: CityDataResponseBuilder)
      modifies this
      ensures b == this && Fields() == old(Fields()).(name := name)
    {
      this.name := name;
      b := this;
    }

    method Timezone(timezone: Option<string>) returns (b: CityDataResponseBuilder)
      modifies this
      ensures b == this && Fields() == old(Fields()).(timezone := timezone)
    {
      this.timezone := timezone;
      b := this;
    }

    method HttpStatus(httpStatus: Option<int>) returns (b: CityDataResponseBuilder)
      modifies this
      ensures b == this && Fields() == old(Fields()).(httpStatus := httpStatus)
    {
      this.httpStatus := httpStatus;
      b := this;
    }

    method ErrorMessage(errorMessage: Option<string>) returns (b: CityDataResponseBuilder)
      modifies this
      ensures b == this && Fields() == old(Fields()).(errorMessage := errorMessage)
    {
      this.errorMessage := errorMessage;
      b := this;
    }

    /** `build()`: the record of the current fields; the builder is left as it is. */
    method Build() returns (r: CityDataResponse)
      ensures r == Fields()
    {
      r := CityDataResponse(cityId, name, timezone, httpStatus, errorMessage);
    }
  }

  /** `CityResponse.Builder`. */
  class CityResponseBuilder {
    var id: Option<string>
    var name: Option<string>
    var timezone: Option<string>
    var httpStatus: Option<int>
    var errorMessage: Option<string>

    function Fields(): CityResponse
      reads this
    {
      CityResponse(id, name, timezone, httpStatus, errorMessage)
    }

    constructor ()
      ensures Fields() == CityResponse(None, None, None, None, None)
    {
      id, name, timezone, httpStatus, errorMessage := None, None, None, None, None;
    }

    method Id(id: Option<string>) returns (b: CityResponseBuilder)
      modifies this
      ensures b == this && Fields() == old(Fields()).(id := id)
    {
      this.id := id;
      b := this;
    }

    method Name(name: Option<string>) returns (b: CityResponseBuilder)
      modifies this
      ensures b == this && Fields() == old(Fields()).(name := name)
    {
      this.name := name;
      b := this;
    }

    method Timezone(timezone: Option<string>) returns (b: CityResponseBuilder)
      modifies this
      ensures b == this && Fields() == old(Fields()).(timezone := timezone)
    {
      this.timezone := timezone;
      b := this;
    }

    method HttpStatus(httpStatus: Option<int>) returns (b: CityResponseBuilder)
      modifies this
      ensures b == this && Fields() == old(Fields()).(httpStatus := httpStatus)
    {
      this.httpStatus := httpStatus;
      b := this;
    }

    method ErrorMessage(errorMessage: Option<string>) returns (b: CityResponseBuilder)
      modifies this
      ensures b == this && Fields() == old(Fields()).(errorMessage := errorMessage)
    {
      this.errorMessage := errorMessage;
      b := this;
    }

    method Build() returns (r: CityResponse)
      ensures r == Fields()
    {
      r := CityResponse(id, name, timezone, httpStatus, errorMessage);
    }
  }

  /** The chain the data function uses for its error responses: a fresh builder given only a
      status and a message builds a record whose data fields are all null. */
  method BuildErrorResponse(httpStatus: int, message: Option<string>) returns (r: CityDataResponse)
    ensures r == CityDataResponse(None, None, None, Some(httpStatus), message)
  {
    var b := new CityDataResponseBuilder();
    b := b.HttpStatus(Some(httpStatus));
    b := b.ErrorMessage(message);
    r := b.Build();
  }

  /** Setting a field twice keeps the second value, and building twice gives equal records. */
  method RebuildAfterOverwrite(first: Option<string>, second: Option<string>) returns (r1: CityDataResponse, r2: CityDataResponse)
    ensures r1 == r2 == CityDataResponse(second, None, None, None, None)
  {
    var b := new CityDataResponseBuilder();
    b := b.CityId(first);
    b := b.CityId(second);
    r1 := b.Build();
    r2 := b.Build();
  }

  /** Every setter of `CityResponse.Builder` assigns its own field: setting all five builds
      the record of exactly those values. */
  method BuildCityResponse(id: Option<string>, name: Option<string>, timezone: Option<string>,
                           httpStatus: Option<int>, errorMessage: Option<string>) returns (r: CityResponse)
    ensures r == CityResponse(id, name, timezone, httpStatus, errorMessage)
  {
    var b := new CityResponseBuilder();
    b := b.Id(id);
    b := b.Name(name);
    b := b.Timezone(timezone);
    b := b.HttpStatus(httpStatus);
    b := b.ErrorMessage(errorMessage);
    r := b.Build();
  }
}
