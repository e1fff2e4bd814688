/**
 * The bundled fixture data (constants.tsx). The longer descriptions that the
 * fixture lemmas scan character by character are written as two concatenated
 * pieces, which keeps those scans cheap for the verifier; each concatenation spells the
 * full description.
 */
module Constants {
  import opened Wrappers
  import opened Types

  const Categories: seq<ServiceCategory> := [
    ServiceCategory("electrical", "Electrician", "ইলেকট্রিশিয়ান", "fa-plug-circle-bolt", "bg-yellow-500"),
    ServiceCategory("plumbing", "Plumber", "প্লাম্বার", "fa-faucet-drip", "bg-blue-500"),
    ServiceCategory("mechanic", "Bike Mechanic", "বাইক মেকানিক", "fa-screwdriver-wrench", "bg-orange-500"),
    ServiceCategory("painting", "Painter", "পেইন্টার", "fa-paint-roller", "bg-pink-500"),
    ServiceCategory("tailor", "Tailor", "দর্জি", "fa-scissors", "bg-purple-500"),
    ServiceCategory("agriculture", "Agriculture", "কৃষি সহায়তা", "fa-wheat-awn", "bg-green-500")
  ]

  const Electrician: ServiceItem := ServiceItem(
    "e1", "electrical", "Rahim Electrical", "রহিম ইলেকট্রিক্যাল",
    "Expert house wiring and fan repair in Sarisahatir Mor.",
    "সরিষাহাটীর মোড়ে হাউজ ওয়্যারিং এবং ফ্যান মেরামতে অভিজ্ঞ।",
    None, Some("01712345678"), PhoneType)

  const Plumber: ServiceItem := ServiceItem(
    "p1", "plumbing", "Karim Plumbing", "করিম প্লাম্বিং",
    "Expert in pipeline repair " + "and bathroom fittings.",
    "পাইপলাইন মেরামত এবং " + "বাথরুম ফিটিংসে অভিজ্ঞ।",
    None, Some("01700000000"), PhoneType)

  const Mechanic: ServiceItem := ServiceItem(
    "m1", "mechanic", "Bike Doctor", "বাইক ডক্টর",
    "Specialized in Indian and " + "Japanese bike servicing.",
    "ইন্ডিয়ান ও জাপানিজ " + "বাইক সার্ভিসিং স্পেশালিস্ট।",
    None, Some("01800000000"), PhoneType)

  const Tailor: ServiceItem := ServiceItem(
    "t1", "tailor", "Adarsha Tailors", "আদর্শ টেইলার্স",
    "High quality gents " + "tailoring and fitting.",
    "উন্নত মানের জেন্টস " + "টেইলারিং ও ফিটিং।",
    None, Some("01900000000"), PhoneType)

  const Services: seq<ServiceItem> := [Electrician, Plumber, Mechanic, Tailor]

  const SampleBookings: seq<Booking> := [
    Booking("BK-1001", "House Wiring", "হাউজ ওয়্যারিং", "Rahim Electrical", "রহিম ইলেকট্রিক্যাল",
            "2023-10-24", Completed, "সম্পন্ন", "৳ ১২০০"),
    Booking("BK-1002", "Bathroom Fitting", "বাথরুম ফিটিং", "Karim Plumbing", "করিম প্লাম্বিং",
            "2023-11-05", Scheduled, "নির্ধারিত", "৳ ৮৫০"),
    Booking("BK-1003", "Bike Service", "বাইক সার্ভিস", "Bike Doctor", "বাইক ডক্টর",
            "2023-11-12", Pending, "অপেক্ষমান", "৳ ৫৫০")
  ]

  /** The location choices; the first is the "no restriction" sentinel. */
  const Locations: seq<string> := [
    "All Areas",
    "Sarisahatir Mor",
    "Naogaon Sadar",
    "Hossenpur",
    "Rajarbag",
    "Santal Para"
  ]

  const UiStringsEn: map<string, string> := map[
    "heroTitle" := "Find Local Experts Instantly.",
    "heroSubtitle" := "Connect with verified electricians, plumbers, and mechanics in Naogaon.",
    "searchPlaceholder" := "What service do you need? (e.g. Electrician)...",
    "allServices" := "All Services",
    "categories" := "Local Categories",
    "featured" := "Available Now in Your Area",
    "noResults" := "No providers found",
    "clearFilters" := "Clear filters",
    "askGemini" := "Ask Gemini for a local pro!",
    "guest" := "Guest User",
    "free" := "OTP Verified",
    "login" := "Login / Register",
    "location" := "Area",
    "myBookings" := "My Bookings",
    "bookingHistory" := "Booking History",
    "bookingId" := "ID",
    "status" := "Status",
    "date" := "Date",
    "total" := "Total",
    "noBookings" := "No bookings found."
  ]

  const UiStringsBn: map<string, string> := map[
    "heroTitle" := "সহজেই খুঁজুন আপনার এলাকার দক্ষ কারিগর।",
    "heroSubtitle" := "নওগাঁর ভেরিফাইড ইলেকট্রিশিয়ান, প্লাম্বার এবং মেকানিকদের সাথে যোগাযোগ করুন।",
    "searchPlaceholder" := "আপনার কোন সেবা প্রয়োজন? (যেমন: ইলেকট্রিশিয়ান)...",
    "allServices" := "সব সেবা",
    "categories" := "সেবা ক্যাটাগরি",
    "featured" := "আপনার এলাকার কারিগররা",
    "noResults" := "কোনো কারিগর পাওয়া যায়নি",
    "clearFilters" := "ফিল্টার মুছে ফেলুন",
    "askGemini" := "জেমিইনাইকে সাহায্য করতে বলুন!",
    "guest" := "অতিথি ব্যবহারকারী",
    "free" := "OTP ভেরিফাইড",
    "login" := "লগইন / রেজিস্ট্রেশন",
    "location" := "এলাকা",
    "myBookings" := "আমার বুকিং",
    "bookingHistory" := "বুকিং ইতিহাস",
    "bookingId" := "আইডি",
    "status" := "অবস্থা",
    "date" := "তারিখ",
    "total" := "মোট",
    "noBookings" := "কোনো বুকিং পাওয়া যায়নি।"
  ]

  /** `UI_STRINGS[lang]` */
  function UiStrings(lang: Language): map<string, string> {
    match lang
    case En => UiStringsEn
    case Bn => UiStringsBn
  }
}
