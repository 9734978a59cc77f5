/**
  * The booking dialog: seats left and the amount due, the seat input's clamp,
  * the checks run before paying (first failure wins), the pay button's disabled
  * state, and the state changes of starting a payment.
  */
module Booking {
  import opened Common
  import opened Text

  /** The `event` prop: `_id` may be missing, and so may `attendees`. */
  datatype Event = Event(id: Option<string>, totalSlots: int, attendees: Option<seq<string>>, price: int)

  /** `event.totalSlots - (event.attendees?.length || 0)`. */
  function AvailableSeats(e: Event): (n: int)
    ensures e.attendees.None? ==> n == e.totalSlots
    ensures e.attendees.Some? ==> n == e.totalSlots - |e.attendees.value|
    ensures n <= e.totalSlots
  {
    e.totalSlots - (if e.attendees.Some? then |e.attendees.value| else 0)
  }

  /** `bookingState.seats * event.price`, in whole currency units. */
  function TotalAmount(seats: int, e: Event): int
  {
    seats * e.price
  }

  /** The amount grows with the seats: one more seat costs one more ticket. */
  lemma TotalAmountPerSeat(seats: int, e: Event)
    ensures TotalAmount(seats + 1, e) == TotalAmount(seats, e) + e.price
    ensures seats >= 0 && e.price >= 0 ==> TotalAmount(seats, e) >= 0
    ensures TotalAmount(1, e) == e.price
  {
  }

  /** `Math.min(parseInt(value) || 1, availableSeats)`; `parsed` is `parseInt`'s result, `None` for NaN. */
  function ClampSeats(parsed: Option<int>, available: int): (n: int)
    ensures n <= available
    ensures n == available || n == (if parsed.None? || parsed.value == 0 then 1 else parsed.value)
    ensures (parsed.None? || parsed.value == 0) && 1 <= available ==> n == 1
    ensures parsed.Some? && parsed.value != 0 && parsed.value <= available ==> n == parsed.value
  {
    var wanted := if parsed.Some? && parsed.value != 0 then parsed.value else 1;
    if wanted < available then wanted else available
  }

  /** The clamp caps the count but lets a negative number through; the checks before paying catch it. */
  lemma ClampKeepsNegative(available: int)
    requires available >= 1
    ensures ClampSeats(Some(-2), available) == -2
  {
  }

  const PaymentMessage := "Please select a payment method"
  const InvalidEventMessage := "Invalid event selected"
  const LoginMessage := "Please login to continue booking"
  const InvalidUrlMessage := "Invalid payment URL received"
  const RedirectMessage := "Redirecting to payment gateway..."
  const PaymentFailedMessage := "Payment initiation failed"

  /** "Please select between 1 and N seats". */
  function SeatsMessage(available: int): string
  {
    "Please select between 1 and " + IntToString(available) + " seats"
  }

  predicate SeatsInRange(seats: int, available: int)
  {
    1 <= seats <= available
  }

  /** `isButtonDisabled`. */
  predicate IsButtonDisabled(loading: bool, seats: int, available: int, paymentMethod: string)
  {
    loading || seats < 1 || seats > available || paymentMethod == ""
  }

  /** An enabled pay button means a payment method is chosen and the seat count is in range. */
  lemma EnabledButtonPassesInputChecks(loading: bool, seats: int, available: int, paymentMethod: string)
    ensures !IsButtonDisabled(loading, seats, available, paymentMethod)
        <==> !loading && paymentMethod != "" && SeatsInRange(seats, available)
  {
  }

  /** What `handleInputChange` is given: a new seat count or a payment method. */
  datatype Input = SeatsInput(seats: int) | PaymentMethodInput(choice: string)

  /** How `/bookings` answered: a body with (perhaps) a payment URL, or a throw. */
  datatype PaymentResponse = Answered(paymentUrl: Option<string>) | Threw(message: Option<string>)

  /** The booking sent to `/bookings` (the redirect URLs are not modelled). */
  datatype BookingRequest = BookingRequest(eventId: string, numberOfSeats: int, paymentMethod: string)

  /** The `BookingForm` component: its `event` prop and its `bookingState`. */
  class BookingForm {
    const event: Event
    var seats: int
    var paymentMethod: string
    var loading: bool
    var error: Option<string>
    var successMessage: Option<string>

    constructor (e: Event)
      ensures event == e && seats == 1 && paymentMethod == "" && !loading
      ensures error == None && successMessage == None
    {
      event := e;
      seats := 1;
      paymentMethod := "";
      loading := false;
      error := None;
      successMessage := None;
    }

    function Available(): int
      reads this
    {
      AvailableSeats(event)
    }

    function Total(): int
      reads this
    {
      TotalAmount(seats, event)
    }

    predicate ButtonDisabled()
      reads this
    {
      IsButtonDisabled(loading, seats, Available(), paymentMethod)
    }

    /**
      * `validateBooking`: the first failing check, in order — payment method, seat
      * range, event id — or none.
      */
    method ValidateBooking() returns (failure: Option<string>)
      ensures paymentMethod == "" ==> failure == Some(PaymentMessage)
      ensures paymentMethod != "" && !SeatsInRange(seats, Available()) ==> failure == Some(SeatsMessage(Available()))
      ensures paymentMethod != "" && SeatsInRange(seats, Available()) && (event.id.None? || event.id.value == "") ==>
                failure == Some(InvalidEventMessage)
      ensures failure.None? <==> paymentMethod != "" && SeatsInRange(seats, Available()) && event.id.Some? && event.id.value != ""
    {
      if paymentMethod == "" {
        return Some(PaymentMessage);
      }
      if seats < 1 || seats > Available() {
        return Some(SeatsMessage(Available()));
      }
      if event.id.None? || event.id.value == "" {
        return Some(InvalidEventMessage);
      }
      return None;
    }

    /** `handleInputChange`: set the one field and clear the error. */
    method HandleInputChange(input: Input)
      modifies this`seats, this`paymentMethod, this`error
      ensures error == None
      ensures input.SeatsInput? ==> seats == input.seats && paymentMethod == old(paymentMethod)
      ensures input.PaymentMethodInput? ==> paymentMethod == input.choice && seats == old(seats)
    {
      match input {
        case SeatsInput(n) => seats := n;
        case PaymentMethodInput(m) => paymentMethod := m;
      }
      error := None;
    }

    /** The seat input's `onChange`: the clamped number is stored, never above the seats left. */
    method HandleSeatsInput(parsed: Option<int>)
      modifies this`seats, this`paymentMethod, this`error
      ensures seats == ClampSeats(parsed, Available()) && seats <= Available()
      ensures paymentMethod == old(paymentMethod) && error == None
    {
      HandleInputChange(SeatsInput(ClampSeats(parsed, Available())));
    }

    /**
      * `handlePayment`: the checks, then the token, then the request; any failure
      * becomes the error text. Returns the booking that was sent, if any.
      */
    method HandlePayment(token: Option<string>, response: PaymentResponse) returns (sent: Option<BookingRequest>)
      modifies this`loading, this`error, this`successMessage
      ensures !loading
      ensures sent.Some? <==> (paymentMethod != "" && SeatsInRange(seats, Available()) && event.id.Some? && event.id.value != ""
                                && token.Some? && token.value != "")
      ensures paymentMethod == "" ==> error == Some(PaymentMessage)
      ensures paymentMethod != "" && !SeatsInRange(seats, Available()) ==> error == Some(SeatsMessage(Available()))
      ensures paymentMethod != "" && SeatsInRange(seats, Available()) && (event.id.None? || event.id.value == "") ==>
                error == Some(InvalidEventMessage)
      ensures (paymentMethod != "" && SeatsInRange(seats, Available()) && event.id.Some? && event.id.value != ""
               && (token.None? || token.value == "")) ==> error == Some(LoginMessage)
      ensures sent.None? ==> successMessage == old(successMessage) && error.Some?
      ensures sent.Some? ==> sent.value == BookingRequest(event.id.value, seats, paymentMethod)
      ensures sent.Some? && response.Answered? && response.paymentUrl.Some? && response.paymentUrl.value != "" ==>
                error == None && successMessage == Some(RedirectMessage)
      ensures sent.Some? && response.Answered? && (response.paymentUrl.None? || response.paymentUrl.value == "") ==>
                error == Some(InvalidUrlMessage) && successMessage == old(successMessage)
      ensures sent.Some? && response.Threw? ==>
                error == Some(Or(response.message, PaymentFailedMessage)) && successMessage == old(successMessage)
    {
      loading := true;
      error := None;
      sent := None;
      var failure := ValidateBooking();
      if failure.Some? {
        error := Some(Or(failure, PaymentFailedMessage));
      } else if token.None? || token.value == "" {
        error := Some(Or(Some(LoginMessage), PaymentFailedMessage));
      } else {
        sent := Some(BookingRequest(event.id.value, seats, paymentMethod));
        match response {
          case Answered(url) =>
            if url.Some? && url.value != "" {
              successMessage := Some(RedirectMessage);
            } else {
              error := Some(Or(Some(InvalidUrlMessage), PaymentFailedMessage));
            }
          case Threw(message) =>
            error := Some(Or(message, PaymentFailedMessage));
        }
      }
      loading := false;
    }
  }
}
