/** `User` (domain/user/entity/User.java) and its credit wallet `UserCredit`
    (domain/user/entity/UserCredit.java). */
module Users {
  import opened Wrappers
  import opened Money
  import opened Text
  import opened DomainEvents

  datatype Oauth2ProviderType = GITHUB
  datatype RoleType = USER | ADMIN

  const ProviderNullMessage := "연동 채널은 null일 수 없습니다."
  const ProviderIdBlankMessage := "연동 아이디는 비어있을 수 없습니다."
  const RoleNullMessage := "권한은 null일 수 없습니다."
  const ChargeNotPositiveMessage := "충전금액은 0과 같거나 작을 수 없습니다."
  const DeductNotPositiveMessage := "차감금액은 0과 같거나 작을 수 없습니다."
  const InsufficientBalanceMessage := "잔액이 부족합니다."

  /** `User.validation()`: the first check that fails, in source order. */
  function UserValidation(provider: Option<Oauth2ProviderType>, providerId: Option<string>,
                          role: Option<RoleType>): (r: Outcome)
    ensures r == Pass <==> provider.Some? && providerId.Some? && !IsBlank(providerId.value) && role.Some?
    ensures provider.None? ==> r == Raise(Domain(ProviderNullMessage))
    ensures r == Raise(Domain(ProviderIdBlankMessage)) <==>
      provider.Some? && (providerId.None? || IsBlank(providerId.value))
    ensures r == Raise(Domain(RoleNullMessage)) <==>
      provider.Some? && providerId.Some? && !IsBlank(providerId.value) && role.None?
  {
    if provider.None? then Raise(Domain(ProviderNullMessage))
    else if providerId.None? || IsBlank(providerId.value) then Raise(Domain(ProviderIdBlankMessage))
    else if role.None? then Raise(Domain(RoleNullMessage))
    else Pass
  }

  class User {
    var email: Option<string>
    var nickname: Option<string>
    const provider: Oauth2ProviderType
    const providerId: string
    var profileImageUrl: Option<string>
    const role: RoleType
    const events: AggregateRoot

    constructor Init(email: Option<string>, nickname: Option<string>, provider: Oauth2ProviderType,
                     providerId: string, profileImageUrl: Option<string>, role: RoleType)
      ensures this.email == email && this.nickname == nickname && this.provider == provider
      ensures this.providerId == providerId && this.profileImageUrl == profileImageUrl && this.role == role
      ensures fresh(events) && events.domainEvents == []
    {
      this.email := email;
      this.nickname := nickname;
      this.provider := provider;
      this.providerId := providerId;
      this.profileImageUrl := profileImageUrl;
      this.role := role;
      events := new AggregateRoot();
    }

    /** `new User(...)`: validated, then one `UserCreatedEvent` is registered. */
    static method Create(email: Option<string>, nickname: Option<string>, provider: Option<Oauth2ProviderType>,
                         providerId: Option<string>, profileImageUrl: Option<string>, role: Option<RoleType>,
                         now: int)
      returns (r: Result<User>)
      ensures r.Ok? <==> UserValidation(provider, providerId, role) == Pass
      ensures r.Fail? ==> Raise(r.error) == UserValidation(provider, providerId, role)
      ensures r.Ok? ==> (fresh(r.value) && fresh(r.value.events)
        && r.value.email == email && r.value.nickname == nickname
        && r.value.provider == provider.value && r.value.providerId == providerId.value
        && r.value.profileImageUrl == profileImageUrl && r.value.role == role.value
        && r.value.events.domainEvents == [UserCreated(now)])
    {
      var check := UserValidation(provider, providerId, role);
      if check.Raise? {
        return Fail(check.error);
      }
      var u := new User.Init(email, nickname, provider.value, providerId.value, profileImageUrl, role.value);
      u.events.RegisterEvent(UserCreated(now));
      return Ok(u);
    }

    /** `updateProfile`: only nickname and image change, without checks. */
    method UpdateProfile(nickname: Option<string>, profileImageUrl: Option<string>)
      modifies this`nickname, this`profileImageUrl
      ensures this.nickname == nickname && this.profileImageUrl == profileImageUrl
    {
      this.nickname := nickname;
      this.profileImageUrl := profileImageUrl;
    }
  }

  /** What `add` does to a balance: a non-positive charge is refused. */
  function Charge(balance: Money, amount: Money): (r: Result<Money>)
    ensures r.Ok? <==> !IsZero(amount)
    ensures r.Fail? ==> r.error == UnprocessableEntity(ChargeNotPositiveMessage)
    ensures r.Ok? ==> IsLessThan(balance, r.value) && r.value == Add(balance, amount)
  {
    if IsLessThanOrEqual(amount, Zero()) then Fail(UnprocessableEntity(ChargeNotPositiveMessage))
    else
      var s := Max(balance.scale, amount.scale);
      AddExact(balance, amount, s);
      CompareAtScale(balance, Add(balance, amount), s);
      Ok(Add(balance, amount))
  }

  /** What `subtract` does to a balance: a non-positive amount or one above
      the balance is refused, so the balance never goes below zero. */
  function Deduct(balance: Money, amount: Money): (r: Result<Money>)
    ensures r.Ok? <==> !IsZero(amount) && IsLessThanOrEqual(amount, balance)
    ensures IsZero(amount) ==> r == Fail(UnprocessableEntity(DeductNotPositiveMessage))
    ensures !IsZero(amount) && IsLessThan(balance, amount) ==> r == Fail(UnprocessableEntity(InsufficientBalanceMessage))
    ensures r.Ok? ==> IsLessThan(r.value, balance) && r.value == Subtract(balance, amount).value
  {
    if IsLessThanOrEqual(amount, Zero()) then Fail(UnprocessableEntity(DeductNotPositiveMessage))
    else if IsLessThan(balance, amount) then Fail(UnprocessableEntity(InsufficientBalanceMessage))
    else
      var d := Subtract(balance, amount).value;
      var s := Max(balance.scale, amount.scale);
      CompareAtScale(d, balance, s);
      Ok(d)
  }

  /** Taking back what was just charged restores the balance's value. */
  lemma DeductUndoesCharge(balance: Money, amount: Money)
    requires Charge(balance, amount).Ok?
    ensures Deduct(Charge(balance, amount).value, amount).Ok?
    ensures SameValue(Deduct(Charge(balance, amount).value, amount).value, balance)
  {
    SubtractAfterAdd(balance, amount);
    var s := Max(balance.scale, amount.scale);
    AddExact(balance, amount, s);
    CompareAtScale(amount, Add(balance, amount), s);
  }

  /** The credit wallet of one user. */
  class UserCredit {
    var amount: Money
    const user: User
    const events: AggregateRoot

    /** `new UserCredit(user)`: a zero balance. */
    constructor (user: User)
      ensures amount == Decimal(0, 0) && this.user == user
      ensures fresh(events) && events.domainEvents == []
    {
      amount := Decimal(0, 0);
      this.user := user;
      events := new AggregateRoot();
    }

    /** `add(amount)`: the balance grows by a positive amount and an
        INCREASE event records the new balance. */
    method Add(charge: Money, now: int) returns (r: Outcome)
      modifies this`amount, events
      ensures var c := Charge(old(amount), charge);
        (c.Fail? ==> r == Raise(c.error) && amount == old(amount) && events.domainEvents == old(events.domainEvents))
        && (c.Ok? ==> (r == Pass && amount == c.value
            && events.domainEvents == old(events.domainEvents) + [UserCreditAmountChanged(INCREASE, charge, amount, now)]))
    {
      var c := Charge(amount, charge);
      if c.Fail? {
        return Raise(c.error);
      }
      amount := c.value;
      events.RegisterEvent(UserCreditAmountChanged(INCREASE, charge, amount, now));
      return Pass;
    }

    /** `subtract(amount)`: the balance shrinks by a positive amount no larger
        than itself and a DECREASE event records the new balance. */
    method Subtract(debit: Money, now: int) returns (r: Outcome)
      modifies this`amount, events
      ensures var d := Deduct(old(amount), debit);
        (d.Fail? ==> r == Raise(d.error) && amount == old(amount) && events.domainEvents == old(events.domainEvents))
        && (d.Ok? ==> (r == Pass && amount == d.value
            && events.domainEvents == old(events.domainEvents) + [UserCreditAmountChanged(DECREASE, debit, amount, now)]))
    {
      var d := Deduct(amount, debit);
      if d.Fail? {
        return Raise(d.error);
      }
      amount := d.value;
      events.RegisterEvent(UserCreditAmountChanged(DECREASE, debit, amount, now));
      return Pass;
    }
  }
}
