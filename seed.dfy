/** The demonstration data the store is seeded with when it is constructed. Dates are
    offsets from the moment of construction, `now`. */
module Seed {
  import opened Wrappers
  import opened Entities

  const Day := 24 * 60 * 60 * 1000

  /** Seven users; the seed writes them straight into the table, passwords in plain text. */
  function Users(): seq<UserDraft> {
    [ UserDraft(None, "admin", "admin123", "Admin User", "admin@coex.com", "+962 7 9876 5432",
                "admin", "COEx Admin", "", None, None),
      UserDraft(None, "dist1", "dist123", "Mohammed Distributor", "dist1@jopharma.com",
                "+962 7 8765 4321", "distributor", "JoPharma Distribution", "", None,
                Some("Pharmaceutical Distributor")),
      UserDraft(None, "dist2", "dist123", "Sara Distributor", "dist2@arabmed.com",
                "+962 7 8765 1234", "distributor", "ArabMed Supplies", "", None,
                Some("Manufacturer & Distributor")),
      UserDraft(None, "dist3", "dist123", "Khalid Distributor", "dist3@medeast.com",
                "+962 7 9871 2345", "distributor", "MedEast Distribution", "", None,
                Some("Pharmaceutical Distributor")),
      UserDraft(None, "pharm1", "pharm123", "Ahmad Pharmacy", "pharm1@alshifa.com",
                "+962 7 1234 5678", "pharmacy", "Al-Shifa Pharmacy", "Amman, Jordan - 7th Circle",
                Some(5000000), None),
      UserDraft(None, "pharm2", "pharm123", "Layla Pharmacy", "pharm2@alhayat.com",
                "+962 7 2345 6789", "pharmacy", "Al-Hayat Medical Center",
                "Irbid, Jordan - University Street", Some(3000000), None),
      UserDraft(None, "pharm3", "pharm123", "Omar Pharmacy", "pharm3@amman.com",
                "+962 7 3456 7890", "pharmacy", "Amman Modern Pharmacy",
                "Zarqa, Jordan - Main Street", Some(2500000), None) ]
  }

  /** Twelve products, prices in fils. */
  function Products(): seq<ProductDraft> {
    [ ProductDraft("Amoxicillin 500mg", "Antibiotic capsules for bacterial infections", 12500,
                   "Antibiotics", "JoPharma", "AMX500", 500, 2),
      ProductDraft("Lisinopril 10mg", "Blood pressure medication for hypertension", 8750,
                   "Cardiovascular", "MedEast", "LIS10", 300, 4),
      ProductDraft("Metformin 850mg", "Oral diabetes medication for type 2 diabetes", 6900,
                   "Diabetes", "JoPharma", "MET850", 400, 2),
      ProductDraft("Paracetamol 500mg", "Pain reliever and fever reducer", 3250,
                   "Pain Relief", "ArabMed", "PAR500", 1000, 3),
      ProductDraft("Salbutamol Inhaler", "Bronchodilator for asthma relief", 15750,
                   "Respiratory", "MedEast", "SAL100", 200, 4),
      ProductDraft("Omeprazole 20mg", "Proton pump inhibitor for acid reflux and ulcers", 9500,
                   "Gastrointestinal", "ArabMed", "OME20", 350, 3),
      ProductDraft("Simvastatin 20mg", "Cholesterol-lowering medication", 11250,
                   "Cardiovascular", "JoPharma", "SIM20", 280, 2),
      ProductDraft("Atorvastatin 10mg", "Potent cholesterol-lowering medication", 13800,
                   "Cardiovascular", "MedEast", "ATO10", 320, 4),
      ProductDraft("Ciprofloxacin 500mg", "Broad-spectrum antibiotic tablets", 14500,
                   "Antibiotics", "ArabMed", "CIP500", 250, 3),
      ProductDraft("Diazepam 5mg", "Anti-anxiety and muscle relaxant medication", 7300,
                   "Psychiatric", "JoPharma", "DIA5", 180, 2),
      ProductDraft("Aspirin 100mg", "Blood thinner for cardiovascular health", 4200,
                   "Cardiovascular", "ArabMed", "ASP100", 600, 3),
      ProductDraft("Insulin Glargine", "Long-acting insulin for diabetes", 45000,
                   "Diabetes", "MedEast", "INS300", 150, 4) ]
  }

  /** Five orders in various states. */
  function Orders(now: int): seq<OrderDraft> {
    [ OrderDraft(Some(now - 15 * Day), Some("delivered"), 5, "Al-Shifa Pharmacy", 2,
                 "JoPharma Distribution",
                 [OrderLine(1, "Amoxicillin 500mg", 12500, 5, 62500),
                  OrderLine(7, "Simvastatin 20mg", 11250, 3, 33750)],
                 96250, Some("Need delivery during morning hours")),
      OrderDraft(Some(now - 10 * Day), Some("delivered"), 5, "Al-Shifa Pharmacy", 3,
                 "ArabMed Supplies",
                 [OrderLine(4, "Paracetamol 500mg", 3250, 10, 32500),
                  OrderLine(6, "Omeprazole 20mg", 9500, 4, 38000)],
                 70500, None),
      OrderDraft(Some(now - 3 * Day), Some("shipped"), 6, "Al-Hayat Medical Center", 4,
                 "MedEast Distribution",
                 [OrderLine(2, "Lisinopril 10mg", 8750, 6, 52500),
                  OrderLine(5, "Salbutamol Inhaler", 15750, 3, 47250)],
                 99750, None),
      OrderDraft(Some(now - 1 * Day), Some("pending"), 7, "Amman Modern Pharmacy", 2,
                 "JoPharma Distribution",
                 [OrderLine(3, "Metformin 850mg", 6900, 8, 55200),
                  OrderLine(10, "Diazepam 5mg", 7300, 2, 14600)],
                 69800, Some("Urgent order - please process ASAP")),
      OrderDraft(Some(now - 2 * Day), Some("accepted"), 5, "Al-Shifa Pharmacy", 4,
                 "MedEast Distribution",
                 [OrderLine(8, "Atorvastatin 10mg", 13800, 4, 55200),
                  OrderLine(12, "Insulin Glargine", 45000, 2, 90000)],
                 145200, None) ]
  }

  /** Three payments. */
  function Payments(now: int): seq<PaymentDraft> {
    [ PaymentDraft(Some(now - 12 * Day), Some("cleared"), 5, "Al-Shifa Pharmacy", 2,
                   "JoPharma Distribution", Some(1), 96250, Some("/uploads/check1.jpg"),
                   Some(now - 5 * Day), Some("Payment for order #1")),
      PaymentDraft(Some(now - 8 * Day), Some("pending"), 5, "Al-Shifa Pharmacy", 3,
                   "ArabMed Supplies", Some(2), 70500, Some("/uploads/check2.jpg"),
                   Some(now + 5 * Day), None),
      PaymentDraft(Some(now - 2 * Day), Some("processed"), 6, "Al-Hayat Medical Center", 4,
                   "MedEast Distribution", None, 150000, Some("/uploads/check3.jpg"),
                   Some(now + 10 * Day), Some("Advance payment")) ]
  }

  /** Three deliveries; the first two carry a signature confirmation. */
  function Deliveries(now: int): seq<DeliveryDraft> {
    [ DeliveryDraft(Some(now - 14 * Day), Some("delivered"), 1, 5, "Al-Shifa Pharmacy", 2,
                    "JoPharma Distribution", "scheduled", Some(now - 13 * Day), None,
                    map["signatureImagePath" := Str("/uploads/signature1.jpg"),
                        "confirmedBy" := Str("Ahmad Pharmacy"),
                        "confirmedAt" := Num(now - 13 * Day)]),
      DeliveryDraft(Some(now - 10 * Day), Some("delivered"), 2, 5, "Al-Shifa Pharmacy", 3,
                    "ArabMed Supplies", "pickup", None, None,
                    map["signatureImagePath" := Str("/uploads/signature2.jpg"),
                        "confirmedBy" := Str("Ahmad Pharmacy"),
                        "confirmedAt" := Num(now - 9 * Day)]),
      DeliveryDraft(Some(now - 2 * Day), Some("in_transit"), 3, 6, "Al-Hayat Medical Center", 4,
                    "MedEast Distribution", "scheduled", Some(now + 1 * Day),
                    Some("Please call 30 minutes before delivery"), map[]) ]
  }

  /** Four notifications, all created a day or more before `now`. */
  function Notifications(now: int): seq<NotificationDraft> {
    [ NotificationDraft(Some(now - 13 * Day), Some(true), 5, "Order Delivered",
                        "Your order #1 has been delivered successfully.", "order_status", None),
      NotificationDraft(Some(now - 1 * Day), Some(false), 2, "New Order Received",
                        "You have received a new order #4 from Amman Modern Pharmacy.",
                        "new_order", None),
      NotificationDraft(Some(now - 2 * Day), Some(false), 5, "Payment Due Reminder",
                        "Payment for order #2 is due in 5 days.", "payment_reminder", None),
      NotificationDraft(Some(now - 3 * Day), Some(false), 4, "Order Status Updated",
                        "Order #3 status has been updated to \"Shipped\".", "order_status", None) ]
  }
}
