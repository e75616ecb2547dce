/**
 * The enrollment aggregate the owner-profile screen completes: the owner's
 * contact details, the dog collected on earlier screens and five nose
 * photographs. Images are an opaque type parameter `I`; only their presence
 * matters here.
 */
module EnrollmentModel {
  import opened Wrappers

  datatype Owner = Owner(name: string, phoneNumber: string, email: string)

  /** The dog handed over by the earlier screens; each member may be missing. */
  datatype Dog<I> = Dog(
    name: Option<string>,
    breed: Option<string>,
    birthYear: Option<string>,
    sex: Option<string>,
    profile: Option<I>)

  /** `firthImage` is the source's own spelling of the fourth slot. */
  datatype Enrollment<I> = Enrollment(
    owner: Option<Owner>,
    dog: Option<Dog<I>>,
    firstImage: Option<I>,
    secondImage: Option<I>,
    thirdImage: Option<I>,
    firthImage: Option<I>,
    fifthImage: Option<I>)

  /** The thirteen unwrapped values handed to the enrollment service. */
  datatype Request<I> = Request(
    ownerName: string,
    phoneNumber: string,
    email: string,
    dogName: string,
    dogBreed: string,
    dogBirthYear: string,
    dogSex: string,
    dogProfileImage: I,
    firstImage: I,
    secondImage: I,
    thirdImage: I,
    firthImage: I,
    fifthImage: I)

  predicate DogComplete<I>(d: Dog<I>) {
    d.name.Some? && d.breed.Some? && d.birthYear.Some? && d.sex.Some? && d.profile.Some?
  }

  predicate ImagesComplete<I>(e: Enrollment<I>) {
    e.firstImage.Some? && e.secondImage.Some? && e.thirdImage.Some?
    && e.firthImage.Some? && e.fifthImage.Some?
  }

  /** What the earlier screens must have supplied: the dog with all its members and all five images. */
  predicate CargoComplete<I>(prev: Option<Enrollment<I>>) {
    prev.Some? && prev.value.dog.Some? && DogComplete(prev.value.dog.value)
    && ImagesComplete(prev.value)
  }

  /** Every one of the thirteen values the service call needs is present. */
  predicate Complete<I>(e: Option<Enrollment<I>>) {
    CargoComplete(e) && e.value.owner.Some?
  }

  /** Dog and images carried over from `prev` unchanged, all absent when `prev` is. */
  ghost predicate SameCargo<I>(e: Enrollment<I>, prev: Option<Enrollment<I>>) {
    match prev
    case None =>
      e.dog.None? && e.firstImage.None? && e.secondImage.None? && e.thirdImage.None?
      && e.firthImage.None? && e.fifthImage.None?
    case Some(p) =>
      e.dog == p.dog && e.firstImage == p.firstImage && e.secondImage == p.secondImage
      && e.thirdImage == p.thirdImage && e.firthImage == p.firthImage && e.fifthImage == p.fifthImage
  }

  /**
   * The snapshot rebuilt on submit: a new enrollment whose owner is `o` and
   * whose dog and images are read from the previous one through optional
   * chaining, so that each is absent when the previous enrollment is.
   */
  function WithOwner<I>(prev: Option<Enrollment<I>>, o: Owner): (e: Enrollment<I>)
    ensures e.owner == Some(o)
    ensures SameCargo(e, prev)
    ensures Complete(Some(e)) <==> CargoComplete(prev)
  {
    Enrollment(
      Some(o),
      if prev.Some? then prev.value.dog else None,
      if prev.Some? then prev.value.firstImage else None,
      if prev.Some? then prev.value.secondImage else None,
      if prev.Some? then prev.value.thirdImage else None,
      if prev.Some? then prev.value.firthImage else None,
      if prev.Some? then prev.value.fifthImage else None)
  }

  /** Rebuilding twice keeps only the latest owner and the original cargo. */
  lemma WithOwnerTwice<I>(prev: Option<Enrollment<I>>, o1: Owner, o2: Owner)
    ensures WithOwner(Some(WithOwner(prev, o1)), o2) == WithOwner(prev, o2)
  {
  }

  /** The dog's name shown on the loading screen (`enrollment?.dog?.name`). */
  function DogNameOf<I>(e: Option<Enrollment<I>>): (n: Option<string>)
    ensures n.Some? <==> e.Some? && e.value.dog.Some? && e.value.dog.value.name.Some?
    ensures n.Some? ==> n.value == e.value.dog.value.name.value
  {
    var en :- e;
    var d :- en.dog;
    d.name
  }

  /**
   * The `guard let` chain in front of the service call: the request when all
   * thirteen values are present, None as soon as one is missing.
   */
  function RequestOf<I>(e: Option<Enrollment<I>>): (r: Option<Request<I>>)
    ensures r.Some? <==> Complete(e)
    ensures r.Some? ==>
      var en := e.value;
      var d := en.dog.value;
      r.value == Request(
        en.owner.value.name, en.owner.value.phoneNumber, en.owner.value.email,
        d.name.value, d.breed.value, d.birthYear.value, d.sex.value, d.profile.value,
        en.firstImage.value, en.secondImage.value, en.thirdImage.value,
        en.firthImage.value, en.fifthImage.value)
  {
    var en :- e;
    var owner :- en.owner;
    var d :- en.dog;
    var dogName :- d.name;
    var dogBreed :- d.breed;
    var dogBirthYear :- d.birthYear;
    var dogSex :- d.sex;
    var dogProfileImage :- d.profile;
    var first :- en.firstImage;
    var second :- en.secondImage;
    var third :- en.thirdImage;
    var firth :- en.firthImage;
    var fifth :- en.fifthImage;
    Some(Request(owner.name, owner.phoneNumber, owner.email,
                 dogName, dogBreed, dogBirthYear, dogSex, dogProfileImage,
                 first, second, third, firth, fifth))
  }
}
