/**
 * The tutor record as the listing code uses it. The type declaration file
 * (src/types/tutor.ts) is not part of this model; the fields below are the ones
 * the components read and write. `availability` holds plain strings: the form
 * casts its string list to `DayOfWeek[]` without any check.
 */
module Types {

  /** A nullable value, such as `selectedTutor`. */
  datatype Option<T> = None | Some(value: T)

  /** A stored tutor profile. */
  datatype Tutor = Tutor(
    id: string,
    name: string,
    image: string,
    instruments: seq<string>,
    suburb: string,
    availability: seq<string>,
    hourlyRate: real,
    experience: int,
    bio: string,
    rating: real)

  /** `Omit<Tutor, 'id'>`: a profile before the store gives it an id. */
  datatype NewTutor = NewTutor(
    name: string,
    image: string,
    instruments: seq<string>,
    suburb: string,
    availability: seq<string>,
    hourlyRate: real,
    experience: int,
    bio: string,
    rating: real)

  /** `{ ...newTutor, id }`: the record with the supplied id added. */
  function WithId(t: NewTutor, id: string): (r: Tutor)
    ensures r.id == id
    ensures WithoutId(r) == t
  {
    Tutor(id, t.name, t.image, t.instruments, t.suburb, t.availability,
          t.hourlyRate, t.experience, t.bio, t.rating)
  }

  /** Drops the id again; `WithId` and `WithoutId` are inverse on the other fields. */
  function WithoutId(t: Tutor): NewTutor {
    NewTutor(t.name, t.image, t.instruments, t.suburb, t.availability,
             t.hourlyRate, t.experience, t.bio, t.rating)
  }
}
