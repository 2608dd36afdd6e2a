/**
 * The client entity (clients/models.py) and the checks that
 * `full_clean` applies to it before a bulk upsert keeps it.
 */
module ClientModels {
  import opened Common

  datatype Client = Client(
    id: ClientId,
    login: string,
    age: int,
    location: string,
    gender: string)

  /** The only genders a client may have. */
  predicate ClientGender(g: string) {
    g == "MALE" || g == "FEMALE"
  }

  /**
   * Field validation of a client: `login` and `location` are required
   * character fields (an empty string is refused), `age` lies in [0, 100]
   * and `gender` is one of the two choices.
   */
  predicate ClientValid(c: Client) {
    && |c.login| > 0
    && 0 <= c.age <= 100
    && |c.location| > 0
    && ClientGender(c.gender)
  }
}
