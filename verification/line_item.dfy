/**
 A service line item: one quoted unit of work with its labor, travel and
 per-trip expense parameters, and the field-by-field view through which the
 editing form reads and writes it.
 */
module LineItem {

  /** One service record. Every numeric input is a plain number; money is
      modelled exactly, as `real`. */
  datatype Task = Task(
    name: string,
    techs: real,
    days: real,
    trips: real,
    hoursPerDay: real,
    rate: real,
    travelRate: real,
    travelTime: real,
    mealCost: real,
    hotelCost: real,
    airfare: real,
    carRental: real,
    parking: real,
    mileage: real,
    includeHotel: bool,
    includeAirfare: bool,
    includeCarRental: bool,
    notes: string
  )

  /** The record the service list starts with. */
  const DefaultTask: Task := Task(
    "", 1.0, 1.0, 1.0, 8.0, 110.0, 50.0, 4.0, 100.0, 200.0,
    0.0, 0.0, 0.0, 0.0, true, true, true, "")

  /** The names the form uses to address a field of a record. */
  datatype Field =
    | Name | Techs | Days | Trips | HoursPerDay | Rate | TravelRate | TravelTime
    | MealCost | HotelCost | Airfare | CarRental | Parking | Mileage
    | IncludeHotel | IncludeAirfare | IncludeCarRental | Notes

  /** A value the form can write: text, a parsed number, or a yes/no choice. */
  datatype Value = Text(s: string) | Number(x: real) | Flag(b: bool)

  /** True iff `v` is of the kind field `f` holds. */
  predicate Fits(f: Field, v: Value) {
    match f
    case Name | Notes => v.Text?
    case IncludeHotel | IncludeAirfare | IncludeCarRental => v.Flag?
    case _ => v.Number?
  }

  /** Reads one field of a record (`task[field]`). */
  function Get(t: Task, f: Field): (v: Value)
    ensures Fits(f, v)
  {
    match f
    case Name => Text(t.name)
    case Techs => Number(t.techs)
    case Days => Number(t.days)
    case Trips => Number(t.trips)
    case HoursPerDay => Number(t.hoursPerDay)
    case Rate => Number(t.rate)
    case TravelRate => Number(t.travelRate)
    case TravelTime => Number(t.travelTime)
    case MealCost => Number(t.mealCost)
    case HotelCost => Number(t.hotelCost)
    case Airfare => Number(t.airfare)
    case CarRental => Number(t.carRental)
    case Parking => Number(t.parking)
    case Mileage => Number(t.mileage)
    case IncludeHotel => Flag(t.includeHotel)
    case IncludeAirfare => Flag(t.includeAirfare)
    case IncludeCarRental => Flag(t.includeCarRental)
    case Notes => Text(t.notes)
  }

  /** Writes one field of a record (`task[field] = value`): the field reads
      back as the written value and every other field reads as before. */
  function Set(t: Task, f: Field, v: Value): (u: Task)
    requires Fits(f, v)
    ensures Get(u, f) == v
    ensures forall g :: g != f ==> Get(u, g) == Get(t, g)
  {
    match f
    case Name => t.(name := v.s)
    case Techs => t.(techs := v.x)
    case Days => t.(days := v.x)
    case Trips => t.(trips := v.x)
    case HoursPerDay => t.(hoursPerDay := v.x)
    case Rate => t.(rate := v.x)
    case TravelRate => t.(travelRate := v.x)
    case TravelTime => t.(travelTime := v.x)
    case MealCost => t.(mealCost := v.x)
    case HotelCost => t.(hotelCost := v.x)
    case Airfare => t.(airfare := v.x)
    case CarRental => t.(carRental := v.x)
    case Parking => t.(parking := v.x)
    case Mileage => t.(mileage := v.x)
    case IncludeHotel => t.(includeHotel := v.b)
    case IncludeAirfare => t.(includeAirfare := v.b)
    case IncludeCarRental => t.(includeCarRental := v.b)
    case Notes => t.(notes := v.s)
  }

  /** Writing a field back to the value it held before another write to it
      restores the record exactly: nothing the first write hid is lost. */
  lemma SetRestore(t: Task, f: Field, v: Value)
    requires Fits(f, v)
    ensures Set(Set(t, f, v), f, Get(t, f)) == t
  {
    match f
    case Name =>
    case Techs =>
    case Days =>
    case Trips =>
    case HoursPerDay =>
    case Rate =>
    case TravelRate =>
    case TravelTime =>
    case MealCost =>
    case HotelCost =>
    case Airfare =>
    case CarRental =>
    case Parking =>
    case Mileage =>
    case IncludeHotel =>
    case IncludeAirfare =>
    case IncludeCarRental =>
    case Notes =>
  }
}
