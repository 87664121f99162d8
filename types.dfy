/** Records shared by the stores, the mock backend and the form components:
    the sweet catalogue entry, its create/update payloads, the search
    parameters, the user record, and the success/error outcome of a mock
    backend call. */
module Types {

  /** A value that may be missing: `null` or an absent optional key. */
  datatype Option<+T> = None | Some(value: T)

  /** One key of a `Partial<...>` payload: either left out or given. */
  datatype Field<+T> = Absent | Present(value: T)

  /** The `{ response: { status, data: { message } } }` shape of a rejected call. */
  datatype ApiError = ApiError(status: int, message: string)

  /** A resolved (`Ok`) or rejected (`Err`) mock backend promise. */
  datatype Result<+T> = Ok(value: T) | Err(error: ApiError)

  /** A catalogue entry. Prices are whole rupees; `description` and
      `imageUrl` are nullable; the two timestamps are opaque strings. */
  datatype Sweet = Sweet(
    id: int,
    name: string,
    category: string,
    price: int,
    quantity: int,
    description: Option<string>,
    imageUrl: Option<string>,
    createdAt: string,
    updatedAt: string)

  /** A sweet without its id and timestamps. */
  datatype CreateSweetDto = CreateSweetDto(
    name: string,
    category: string,
    price: int,
    quantity: int,
    description: Option<string>,
    imageUrl: Option<string>)

  /** Every key of a CreateSweetDto, each one optional. */
  datatype UpdateSweetDto = UpdateSweetDto(
    name: Field<string>,
    category: Field<string>,
    price: Field<int>,
    quantity: Field<int>,
    description: Field<Option<string>>,
    imageUrl: Field<Option<string>>)

  /** The inclusive `[low, high]` price interval of a search. */
  datatype PriceRange = PriceRange(low: int, high: int)

  /** The optional keys of a catalogue search. */
  datatype SearchParams = SearchParams(
    query: Option<string>,
    category: Option<string>,
    priceRange: Option<PriceRange>)

  const NoSearchParams: SearchParams := SearchParams(None, None, None)

  datatype Role = UserRole | AdminRole

  datatype User = User(id: int, email: string, username: string, role: Role, createdAt: string)

  /** What a successful login or registration resolves to. */
  datatype AuthResponse = AuthResponse(user: User, token: string)
}
