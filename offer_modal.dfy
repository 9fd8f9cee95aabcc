/** The offer dialog: an editable message, a mobile number asked for only
    when one customer is targeted, and a guard that refuses to send a
    blank message. */
module Offer {
  import opened Wrappers
  import opened JsText
  import opened Types

  datatype Platform = Sms | WhatsApp {
    /** The platform's name as the dialog passes it on. */
    function Name(): string {
      match this
      case Sms => "sms"
      case WhatsApp => "whatsapp"
    }
  }

  /** What the dialog hands to the dashboard when it sends. */
  datatype Dispatch = Dispatch(message: string, platform: Platform, mobileNumber: Option<string>)

  const DefaultMessage: string :=
    "Hello valued customer, " + "here's a special 20% discount on your next purchase!"

  class OfferDialog {
    const customers: seq<TopCustomer>
    var message: string
    var mobileNumber: string

    /** The dialog opens with the discount text and an empty number. */
    constructor(customers: seq<TopCustomer>)
      ensures this.customers == customers
      ensures message == DefaultMessage && mobileNumber == ""
    {
      this.customers := customers;
      message := DefaultMessage;
      mobileNumber := "";
    }

    /** The number field is offered only for a single recipient. */
    predicate ShowsMobileInput() {
      |customers| == 1
    }

    method SetMessage(value: string)
      modifies this`message
      ensures message == value
    {
      message := value;
    }

    method SetMobileNumber(value: string)
      modifies this`mobileNumber
      ensures mobileNumber == value
    {
      mobileNumber := value;
    }

    /** Sends exactly when the message has a non-whitespace character. What
        is sent is the message as typed (not trimmed) and the chosen
        platform, with the number only when one customer is targeted. */
    method HandleSend(platform: Platform) returns (d: Option<Dispatch>)
      ensures d.Some? <==> exists i :: 0 <= i < |message| && !IsWhitespace(message[i])
      ensures d.Some? ==> d.value.message == message && d.value.platform == platform
      ensures d.Some? ==> (d.value.mobileNumber.Some? <==> ShowsMobileInput())
      ensures d.Some? && ShowsMobileInput() ==> d.value.mobileNumber == Some(mobileNumber)
    {
      TrimEmptyIffAllWhitespace(message);
      if Trim(message) != "" {
        d := Some(Dispatch(message, platform, if |customers| == 1 then Some(mobileNumber) else None));
      } else {
        d := None;
      }
    }
  }

  /** The default message is sent as it stands; a message of spaces and
      line breaks is not. */
  method BlankMessageScenario(c: TopCustomer) {
    var dialog := new OfferDialog([c]);
    var d := dialog.HandleSend(Sms);
    assert DefaultMessage[0] == 'H';
    assert d == Some(Dispatch(DefaultMessage, Sms, Some("")));
    dialog.SetMessage(" \n ");
    d := dialog.HandleSend(WhatsApp);
    assert d == None;
  }
}
